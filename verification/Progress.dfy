/** Sequential workflows over whole behaviours: exactly one thing is outstanding at every moment. */
module Progress {
  import opened Basics
  import opened History
  import opened Program
  import opened Replay
  import opened ReplayTheorems
  import opened Growth
  import opened Backoff
  import opened Log
  import opened Store
  import opened RunInvariant
  import opened System
  import opened Durability
  import opened Sequential

  // ---------------------------------------------------------------- nobody signals the run

  ghost predicate Mute(h: seq<Event>, h': seq<Event>) {
    h <= h' && forall j :: |h| <= j < |h'| ==> !h'[j].attrs.Signaled?
  }

  lemma {:induction false} CommandsMute(r: Run, now: int, token: nat, cs: seq<Command>)
    ensures Mute(r.history, ApplyCommands(r, now, token, cs).history)
    decreases |cs|
  {
    if cs != [] && !IsTerminal(cs[0]) {
      CommandsMute(ApplyCommand(r, now, token, cs[0]), now, token + TokensFor(cs[0]), cs[1..]);
    }
  }

  lemma {:induction false} FireAllMute(s: State, due: seq<(RunKey, int)>, s': State, k: RunKey)
    requires FiresAll(s, due, s') && k in s.runs
    ensures k in s'.runs && Mute(s.runs[k].history, s'.runs[k].history)
    decreases |due|
  {
    if due != [] {
      FireAllMute(FireOne(s, due[0].0, due[0].1), due[1..], s', k);
    }
  }

  /** Only a signal action writes a signal event. */
  lemma StepMute(reg: Registry, c: System, a: Action, c': System, k: RunKey)
    requires Step(reg, c, a, c') && k in c.store.runs && k in c'.store.runs
    requires !(a.Signal? && a.key == k)
    ensures Mute(c.store.runs[k].history, c'.store.runs[k].history)
  {
    hide Honest, ApplyCommands, NewRun, EffectivePolicy, Delay, CanRetry, FiresAll, TokensUsed;
    match a
    case RespondWorkflow(m) =>
      CommandsMute(c.store.runs[k], c.store.now, c.store.activitySeq, m.decision.commands);
    case FireTimers(due) => FireAllMute(c.store, due, c'.store, k);
    case _ =>
  }

  // ---------------------------------------------------------------- outstanding work and the log

  lemma LiveStepCount(h: seq<Event>, e: Event)
    requires Legal(h, e) && !IsRecord(e.attrs)
    ensures |LiveStep(Live(h), e)| == |Live(h)| - (if e.attrs.ActivityCompleted? || e.attrs.ActivityFailed? then 1 else 0)
  {
    hide Live, TimersOf, Closed;
    match e.attrs
    case ActivityCompleted(s, _) => LiveShrinks(Live(h), s);
    case ActivityFailed(s, _, _) => LiveShrinks(Live(h), s);
    case _ => SameSize(LiveStep(Live(h), e), Live(h));
  }

  lemma SameSize<T, U>(m: map<T, U>, m': map<T, U>)
    requires m.Keys == m'.Keys
    ensures |m| == |m'|
  {
    assert |m| == |m.Keys| && |m'| == |m'.Keys|;
  }

  lemma UnfiredStep(h: seq<Event>, e: Event)
    requires Legal(h, e) && !IsRecord(e.attrs)
    requires TimersOf(h + [e]) == TimerStep(TimersOf(h), e)
    ensures |Unfired(h + [e])| == |Unfired(h)| - (if e.attrs.TimerFired? then 1 else 0)
  {
    hide Live, TimersOf, Closed;
    if e.attrs.TimerFired? {
      assert Unfired(h + [e]) == Unfired(h) - {e.attrs.startedId};
      assert e.attrs.startedId in Unfired(h);
    } else {
      assert Unfired(h + [e]) == Unfired(h);
    }
  }

  lemma OutstandingStep(h: seq<Event>, e: Event)
    requires WellFormed(h) && Legal(h, e) && h != []
    requires !IsRecord(e.attrs) && !IsClose(e.attrs) && !e.attrs.Signaled?
    ensures Outstanding(h + [e]) == Outstanding(h) - (if IsWake(e.attrs) then 1 else 0)
  {
    hide WellFormed, Live, TimersOf, Closed, LiveStep, TimerStep, Unfired;
    LogAppend(h, e);
    ClosedAppend(h, e);
    LiveStepCount(h, e);
    UnfiredStep(h, e);
  }

  lemma LiveShrinks(m: map<int, ActivityColumns>, s: int)
    requires s in m
    ensures |m - {s}| == |m| - 1
  {
    assert (m - {s}).Keys == m.Keys - {s};
  }

  lemma NoneOutstanding(h: seq<Event>)
    requires Outstanding(h) == 0
    ensures Live(h) == map[] && Unfired(h) == {} && !Closed(h)
  {
    hide Live, TimersOf, Closed;
  }

  /** Quiet growth without signals consumes the one outstanding thing, or leaves it. */
  lemma {:induction false} QuietOutstanding(h: seq<Event>, h': seq<Event>)
    requires WellFormed(h') && Quiet(h, h') && Mute(h, h') && h != []
    requires Outstanding(h) <= 1
    ensures Outstanding(h') == Outstanding(h) - (if WokenSince(|h|, h') then 1 else 0)
    ensures Outstanding(h) == 0 ==> h' == h
  {
    if |h| == |h'| {
      assert h == h';
      assert !WokenSince(|h|, h');
    } else {
      QuietSplit(h, h');
      var init, e := h'[..|h'| - 1], h'[|h'| - 1];
      assert Mute(h, init);
      WokenLast(|h|, init, e);
      PrefixWellFormed(h', |h'| - 1);
      hide WellFormed, Legal, Quiet, Outstanding, Mute, WokenSince, Admissible;
      QuietOutstanding(h, init);
      LastIsNotRecord(h, h');
      if Outstanding(init) == 0 {
        NoneOutstanding(init);
        NothingCanHappen(init, e);
        assert false;
      }
      OutstandingStep(init, e);
    }
  }

  lemma WokenLast(n: nat, h: seq<Event>, e: Event)
    requires n <= |h|
    ensures WokenSince(n, h + [e]) <==> WokenSince(n, h) || IsWake(e.attrs)
  {
    if WokenSince(n, h) {
      var j :| n <= j < |h| && IsWake(h[j].attrs);
      assert IsWake((h + [e])[j].attrs);
    }
    if IsWake(e.attrs) {
      assert IsWake((h + [e])[|h|].attrs);
    }
  }

  lemma LastIsNotRecord(h: seq<Event>, h': seq<Event>)
    requires Quiet(h, h') && Mute(h, h') && |h| < |h'|
    ensures !IsRecord(h'[|h'| - 1].attrs) && !IsClose(h'[|h'| - 1].attrs) && !h'[|h'| - 1].attrs.Signaled?
  {
  }

  /** One call or the close makes exactly one thing outstanding. */
  lemma CommandOutstanding(r: Run, now: int, token: nat, c: Command)
    requires Indexed(r) && Outstanding(r.history) == 0
    ensures Outstanding(ApplyCommand(r, now, token, c).history) == 1
  {
    hide WellFormed, Live, TimersOf, Closed, StatusOf, Columns;
    var r' := ApplyCommand(r, now, token, c);
    var h, e := r.history, r'.history[|r.history|];
    assert r'.history == h + [e];
    NoneOutstanding(h);
    LogAppend(h, e);
    ClosedAppend(h, e);
    FutureIdsUnused(h, r.nextEventId);
    if c.StartTimer? {
      assert Unfired(h + [e]) == {r.nextEventId};
    } else {
      assert Unfired(h + [e]) == {};
    }
  }

  // ---------------------------------------------------------------- the invariant

  /** A task is pending exactly when nothing else is; otherwise exactly one other thing is. */
  ghost predicate Exclusive(r: Run) {
    Outstanding(r.history) == (if r.task.Some? then 0 else 1)
  }

  ghost predicate Fresh(c: System, k: RunKey)
    requires k in c.store.runs
  {
    forall m :: m in c.sent && HoldsWorkflow(c.store, k, m.token) ==> m.basis == c.store.runs[k].history
  }

  ghost predicate SequentialOk(c: System, k: RunKey) {
    k in c.store.runs ==> Exclusive(c.store.runs[k]) && Fresh(c, k)
  }

  lemma NewRunExclusive(workflowType: string, queue: string, input: Bytes, token: nat, now: int)
    ensures Exclusive(NewRun(workflowType, queue, input, token, now))
  {
    var e := Event(1, now, WorkflowStarted(workflowType, queue, input));
    assert NewRun(workflowType, queue, input, token, now).history == [] + [e];
    LogAppend([], e);
    ClosedAppend([], e);
    EmptyFolds();
    assert Unfired([] + [e]) == {};
  }

  lemma QuietExclusive(r: Run, r': Run, issued: nat)
    requires Indexed(r) && Indexed(r') && GrowsQuietly(r, r', issued) && Mute(r.history, r'.history) && Exclusive(r)
    ensures Exclusive(r')
    ensures r.task.Some? ==> r'.history == r.history
  {
    hide WellFormed, Live, TimersOf, Quiet, Outstanding, Mute, WokenSince, StatusOf, Columns;
    QuietOutstanding(r.history, r'.history);
  }

  lemma QuietFresh(reg: Registry, c: System, a: Action, c': System, k: RunKey)
    requires Inv(reg, c) && Step(reg, c, a, c') && k in c.store.runs && k in c'.store.runs
    requires GrowsQuietly(c.store.runs[k], c'.store.runs[k], c.store.workflowSeq)
    requires c.store.runs[k].task.Some? ==> c'.store.runs[k].history == c.store.runs[k].history
    requires Fresh(c, k)
    requires forall m :: m in c'.sent && m !in c.sent ==> m.key in c.store.runs && m.basis == c.store.runs[m.key].history
    requires Inv(reg, c')
    ensures Fresh(c', k)
  {
    hide Step, Indexed, Quiet, SameRun, WakesExactly, DecidesWithin, AllIndexed, TokensKnown, TokensUnique, OneRunning;
    forall m | m in c'.sent && HoldsWorkflow(c'.store, k, m.token)
      ensures m.basis == c'.store.runs[k].history
    {
      assert MessageOk(reg, c'.store, m);
      if m in c.sent {
        assert MessageOk(reg, c.store, m);
        assert HoldsWorkflow(c.store, k, m.token);
      } else {
        PolledHasTask(reg, c, a, c', m);
      }
    }
  }

  lemma PolledHasTask(reg: Registry, c: System, a: Action, c': System, m: Message)
    requires Step(reg, c, a, c') && m in c'.sent && m !in c.sent
    ensures m.key in c.store.runs && c.store.runs[m.key].task.Some? && m.basis == c.store.runs[m.key].history
  {
    hide Step, DecidesWithin;
    SentGrows(reg, c, a, c');
  }

  lemma CommitExclusive(reg: Registry, c: System, m: Message, k: RunKey, c': System)
    requires Inv(reg, c) && Sound(reg, c) && CommitsTo(c, m, k, c')
    requires SequentialOk(c, k) && m.workflowType in reg && IsSequential(reg[m.workflowType])
    ensures k in c'.store.runs && Exclusive(c'.store.runs[k]) && c'.store.runs[k].task.None?
    ensures |c'.store.runs[k].history| == |c.store.runs[k].history| + 1
  {
    hide WellFormed, Live, TimersOf, StatusOf, Columns, Quiet, DecidesWithin, Stable, IsSequential, Consistent, Outstanding,
         ApplyCommand, TokensUsed, Closed, AllAnswered, TokensKnown, TokensUnique, OneRunning;
    var r := c.store.runs[k];
    assert MessageOk(reg, c.store, m) && RunSound(reg, r) && Indexed(r);
    assert m.basis == r.history;
    NoneOutstanding(r.history);
    NothingOutstandingAnswered(r.history);
    SequentialIsStable(reg[m.workflowType]);
    SequentialDecision(reg[m.workflowType], m.queue, r.history, m.decision, m.calls);
    var cmd := m.decision.commands[0];
    assert m.decision.commands == [cmd];
    ApplyOne(r, c.store.now, c.store.activitySeq, cmd);
    CommandOutstanding(r, c.store.now, c.store.activitySeq, cmd);
    CommandEnacts(r, c.store.now, c.store.activitySeq, cmd);
  }

  lemma SequentialIsStable(code: Code)
    requires IsSequential(code)
    ensures Stable(code)
  {
    hide Stable, Evaluate;
  }

  lemma ApplyOne(r: Run, now: int, token: nat, c: Command)
    ensures ApplyCommands(r, now, token, [c]) == ApplyCommand(r, now, token, c)
  {
    hide ApplyCommand;
    assert [c][1..] == [];
  }

  lemma StepKeepsSequential(reg: Registry, c: System, a: Action, c': System, k: RunKey)
    requires Inv(reg, c) && Sound(reg, c) && Step(reg, c, a, c') && Inv(reg, c')
    requires SequentialOk(c, k) && !(a.Signal? && a.key == k)
    requires k in c'.store.runs ==> c'.store.runs[k].workflowType in reg && IsSequential(reg[c'.store.runs[k].workflowType])
    ensures SequentialOk(c', k)
  {
    hide Step, Sound, IsSequential, Exclusive, Fresh, GrowsQuietly, Indexed, Mute, CommitsTo, NewRun,
         TokensKnown, TokensUnique, OneRunning, MessagesOk;
    if k in c.store.runs {
      StepOnRun(reg, c, a, c', k);
      StepMute(reg, c, a, c', k);
      assert Indexed(c.store.runs[k]) && Indexed(c'.store.runs[k]);
      if GrowsQuietly(c.store.runs[k], c'.store.runs[k], c.store.workflowSeq) {
        QuietExclusive(c.store.runs[k], c'.store.runs[k], c.store.workflowSeq);
        forall m | m in c'.sent && m !in c.sent
          ensures m.key in c.store.runs && m.basis == c.store.runs[m.key].history
        {
          PolledHasTask(reg, c, a, c', m);
        }
        QuietFresh(reg, c, a, c', k);
      } else {
        CommitKeepsSequential(reg, c, a.message, k, c');
      }
    } else if k in c'.store.runs {
      NewRuns(reg, c, a, c', k);
      NewRunExclusive(a.workflowType, a.queue, a.input, c.store.workflowSeq, c.store.now);
      NewRunFresh(reg, c, a, c', k);
    }
  }

  lemma CommitKeepsSequential(reg: Registry, c: System, m: Message, k: RunKey, c': System)
    requires Inv(reg, c) && Sound(reg, c) && CommitsTo(c, m, k, c') && SequentialOk(c, k)
    requires k in c'.store.runs && c'.store.runs[k].workflowType in reg && IsSequential(reg[c'.store.runs[k].workflowType])
    ensures SequentialOk(c', k)
  {
    hide IsSequential, Indexed, Sound, Exclusive, Quiet, DecidesWithin, Commit, TokensUsed,
         TokensKnown, TokensUnique, OneRunning, AllIndexed;
    assert MessageOk(reg, c.store, m);
    CommitSameRun(c.store.runs[k], c.store.now, c.store.activitySeq, m.decision.commands);
    CommitExclusive(reg, c, m, k, c');
  }

  lemma NewRunFresh(reg: Registry, c: System, a: Action, c': System, k: RunKey)
    requires Inv(reg, c) && Step(reg, c, a, c') && a.Start? && k !in c.store.runs && k in c'.store.runs
    requires c'.store.runs[k] == NewRun(a.workflowType, a.queue, a.input, c.store.workflowSeq, c.store.now)
    ensures Fresh(c', k)
  {
    hide Indexed, NewRun, StartWorkflow, Current, AllIndexed, TokensKnown, TokensUnique, OneRunning;
    NewRunRows(a.workflowType, a.queue, a.input, c.store.workflowSeq, c.store.now);
    forall m | m in c'.sent
      ensures !HoldsWorkflow(c'.store, k, m.token)
    {
      assert MessageOk(reg, c.store, m);
    }
  }

  // ---------------------------------------------------------------- theorem

  ghost predicate NeverSignaled(actions: seq<Action>, k: RunKey) {
    forall j :: 0 <= j < |actions| ==> !(actions[j].Signal? && actions[j].key == k)
  }

  ghost predicate RunsSequentialCode(reg: Registry, c: System, k: RunKey) {
    k in c.store.runs ==> c.store.runs[k].workflowType in reg && IsSequential(reg[c.store.runs[k].workflowType])
  }

  lemma {:induction false} ReachableSequential(reg: Registry, states: seq<System>, actions: seq<Action>, i: nat, k: RunKey)
    requires Behavior(reg, states, actions) && NeverSignaled(actions, k) && i < |states|
    requires RunsSequentialCode(reg, states[i], k)
    ensures SequentialOk(states[i], k)
  {
    hide Step, Inv, Sound, SequentialOk, IsSequential;
    if i == 0 {
      InitSequential(k);
    } else {
      if k in states[i - 1].store.runs {
        AppendOnly(reg, states, actions, i - 1, i, k);
      }
      ReachableSequential(reg, states, actions, i - 1, k);
      ReachableInv(reg, states, actions, i - 1);
      ReachableInv(reg, states, actions, i);
      ReachableSound(reg, states, actions, i - 1);
      assert Taken(reg, states, actions, i - 1);
      StepKeepsSequential(reg, states[i - 1], actions[i - 1], states[i], k);
    }
  }

  lemma InitSequential(k: RunKey)
    ensures SequentialOk(INIT, k)
  {
  }

  /**
   Sequential progress. In every reachable state of an unsignaled run of sequential code, the pending
   task, the live activity rows, the unfired timers and the close add up to exactly one. So a run
   that has not closed always has something left that will move it.
   */
  lemma SequentialProgress(reg: Registry, states: seq<System>, actions: seq<Action>, i: nat, k: RunKey)
    requires Behavior(reg, states, actions) && NeverSignaled(actions, k) && i < |states|
    requires k in states[i].store.runs && RunsSequentialCode(reg, states[i], k)
    ensures var r := states[i].store.runs[k];
            (if r.task.Some? then 1 else 0) + |r.activities| + |set s | s in r.timers && !r.timers[s].fired|
            + (if r.status != StatusRunning then 1 else 0) == 1
  {
    hide Step, Behavior, NeverSignaled, RunsSequentialCode, WellFormed, Live, TimersOf, Closed,
         TokensKnown, TokensUnique, OneRunning, MessagesOk, StatusOf;
    var r := states[i].store.runs[k];
    ReachableInv(reg, states, actions, i);
    ReachableSequential(reg, states, actions, i, k);
    assert Indexed(r);
    ClosedStatus(r);
    assert r.activities.Keys == Live(r.history).Keys by {
      assert r.activities.Keys == Columns(r.activities).Keys;
    }
    assert |r.activities| == |r.activities.Keys|;
    assert |Live(r.history)| == |Live(r.history).Keys|;
    assert (set s | s in r.timers && !r.timers[s].fired) == Unfired(r.history);
  }
}
