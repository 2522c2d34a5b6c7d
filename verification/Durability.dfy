/**
 The guarantees of the whole system: durable execution is straight-through execution.

 `Tracks` relates a run's log to its code: the recorded calls are the first calls the code makes when
 answered from that log and, once closed, the recorded close is the one the code reaches.
 */
module Durability {
  import opened Basics
  import opened History
  import opened Program
  import opened Replay
  import opened ReplayTheorems
  import opened Growth
  import opened Log
  import opened Store
  import opened RunInvariant
  import opened System

  /** The type is registered, with code in the stable fragment. Other types may do as they like. */
  ghost predicate RunsStable(reg: Registry, workflowType: string) {
    workflowType in reg && Stable(reg[workflowType])
  }

  ghost predicate Tracks(code: Code, queue: string, h: seq<Event>) {
    && Consistent(code, queue, h)
    && (Closed(h) ==> exists n: nat :: ClosedAsEvaluated(code, queue, h, n))
  }

  ghost predicate RunSound(reg: Registry, r: Run) {
    RunsStable(reg, r.workflowType) ==> Tracks(reg[r.workflowType], r.queue, r.history)
  }

  ghost predicate BasisSound(reg: Registry, m: Message) {
    RunsStable(reg, m.workflowType) ==> Consistent(reg[m.workflowType], m.queue, m.basis)
  }

  ghost predicate Sound(reg: Registry, c: System) {
    && (forall k {:trigger RunSound(reg, c.store.runs[k])} :: k in c.store.runs ==> RunSound(reg, c.store.runs[k]))
    && (forall m {:trigger BasisSound(reg, m)} :: m in c.sent ==> BasisSound(reg, m))
  }

  // ---------------------------------------------------------------- quiet growth

  lemma {:induction false} QuietCloseOf(h: seq<Event>, h': seq<Event>)
    requires Quiet(h, h')
    ensures CloseOf(h') == CloseOf(h)
  {
    if |h| == |h'| {
      assert h == h';
    } else {
      hide Quiet, CloseOf, Admissible;
      QuietSplit(h, h');
      var init, e := h'[..|h'| - 1], h'[|h'| - 1];
      QuietCloseOf(h, init);
      CloseOfAppend(init, e);
    }
  }

  lemma TracksGrows(code: Code, queue: string, h: seq<Event>, h': seq<Event>)
    requires Stable(code) && Tracks(code, queue, h) && Quiet(h, h')
    ensures Tracks(code, queue, h')
  {
    hide Stable, Quiet, Consistent, Straight, Records, Closed, CloseOf;
    ConsistentGrows(code, queue, h, h');
    QuietGrowth(h, h');
    if Closed(h) {
      var n: nat :| ClosedAsEvaluated(code, queue, h, n);
      StraightGrows(code, queue, h, h', n);
      QuietCloseOf(h, h');
      assert ClosedAsEvaluated(code, queue, h', n);
    }
  }

  // ---------------------------------------------------------------- commits

  /** Only the last command may be terminal, so the store applies all of them. */
  predicate AllButLastAreCalls(cs: seq<Command>) {
    forall i :: 0 <= i < |cs| - 1 ==> IsCall(cs[i])
  }

  lemma CommandEnacts(r: Run, now: int, token: nat, c: Command)
    ensures var r' := ApplyCommand(r, now, token, c);
            && |r'.history| == |r.history| + 1 && r.history <= r'.history
            && Enacts(c, r'.history[|r.history|].attrs)
  {
  }

  lemma {:induction false} CommandsApplied(r: Run, now: int, token: nat, cs: seq<Command>)
    requires AllButLastAreCalls(cs)
    ensures Applied(r.history, cs, ApplyCommands(r, now, token, cs).history)
    decreases |cs|
  {
    hide Enacts, ApplyCommand;
    if cs != [] {
      var r1 := ApplyCommand(r, now, token, cs[0]);
      CommandEnacts(r, now, token, cs[0]);
      if IsTerminal(cs[0]) {
        assert cs == [cs[0]];
      } else {
        CommandsApplied(r1, now, token + TokensFor(cs[0]), cs[1..]);
        AppliedCons(r.history, r1.history, cs, ApplyCommands(r, now, token, cs).history);
      }
    }
  }

  lemma AppliedCons(h: seq<Event>, h1: seq<Event>, cs: seq<Command>, h': seq<Event>)
    requires cs != [] && |h1| == |h| + 1 && h <= h1 && Enacts(cs[0], h1[|h|].attrs)
    requires Applied(h1, cs[1..], h')
    ensures Applied(h, cs, h')
  {
    hide Enacts;
    forall i | 0 <= i < |cs|
      ensures Enacts(cs[i], h'[|h| + i].attrs)
    {
      if i > 0 {
        assert Enacts(cs[1..][i - 1], h'[|h1| + (i - 1)].attrs);
      } else {
        assert h'[|h|] == h1[|h|];
      }
    }
  }

  lemma EmittedShape(commands: seq<Command>, recorded: seq<Record>, s: Status)
    requires Emits(commands, recorded, s)
    ensures AllButLastAreCalls(commands)
  {
    if s.Finished? {
      forall i | 0 <= i < |commands| - 1
        ensures IsCall(commands[i])
      {
        assert commands[i] in commands[..|commands| - 1];
      }
    }
  }

  /** Committing a current decision, however stale, leaves a log that tracks the code. */
  lemma CommitTracks(code: Code, queue: string, h0: seq<Event>, r: Run, d: Decision, n: nat, now: int, token: nat)
    requires Stable(code) && Quiet(h0, r.history) && Consistent(code, queue, h0)
    requires DecidesWithin(code, queue, h0, d, n) && Tracks(code, queue, r.history)
    ensures Tracks(code, queue, Commit(r, now, token, d.commands).history)
    ensures !Closed(h0) ==> Applied(r.history, d.commands, Commit(r, now, token, d.commands).history)
  {
    hide Stable, Quiet, Consistent, Straight, Records, Closed, CloseOf, DecidesWithin, Applied, Emits, AllButLastAreCalls;
    if Closed(h0) {
      DecidedNothing(code, queue, h0, d, n);
      ApplyNone(r, now, token);
    } else {
      var r' := Commit(r, now, token, d.commands);
      DecisionIsSurplus(code, queue, h0, d, n);
      EmittedShape(d.commands, Records(h0), Straight(code, queue, h0, n));
      CommandsApplied(r, now, token, d.commands);
      StaleCommit(code, queue, h0, r.history, d, n, r'.history);
      ConsistentFrom(code, queue, r'.history, n);
    }
  }

  lemma ApplyNone(r: Run, now: int, token: nat)
    ensures ApplyCommands(r, now, token, []) == r
  {
  }

  lemma ConsistentFrom(code: Code, queue: string, h: seq<Event>, n: nat)
    requires ConsistentWithin(code, queue, h, n)
    ensures Consistent(code, queue, h)
  {
  }

  lemma DecidedNothing(code: Code, queue: string, h: seq<Event>, d: Decision, n: nat)
    requires Closed(h) && DecidesWithin(code, queue, h, d, n)
    ensures d == Decision([], true)
  {
    hide Closed, ViewOf, ReplayRun;
    ViewProjects(h);
  }

  // ---------------------------------------------------------------- induction

  lemma NewRunSound(reg: Registry, workflowType: string, queue: string, input: Bytes, token: nat, now: int)
    ensures RunSound(reg, NewRun(workflowType, queue, input, token, now))
  {
    hide Evaluate;
    var r := NewRun(workflowType, queue, input, token, now);
    var e := Event(1, now, WorkflowStarted(workflowType, queue, input));
    assert r.history == [] + [e];
    RecordsAppend([], e);
    ClosedAppend([], e);
    if workflowType in reg {
      assert ConsistentWithin(reg[workflowType], queue, r.history, 0);
    }
  }

  lemma CommitSound(reg: Registry, c: System, m: Message, k: RunKey, c': System)
    requires Inv(reg, c) && Sound(reg, c) && CommitsTo(c, m, k, c')
    ensures k in c'.store.runs && RunSound(reg, c'.store.runs[k])
  {
    hide Indexed, Quiet, Tracks, Consistent, DecidesWithin, Commit, Stable, TokensKnown, TokensUnique, OneRunning, TokensUsed;
    assert MessageOk(reg, c.store, m) && BasisSound(reg, m) && RunSound(reg, c.store.runs[k]);
    var r := c.store.runs[k];
    if RunsStable(reg, r.workflowType) {
      CommitTracks(reg[m.workflowType], m.queue, m.basis, r, m.decision, m.calls, c.store.now, c.store.activitySeq);
    }
    CommitSameRun(r, c.store.now, c.store.activitySeq, m.decision.commands);
  }

  lemma CommitSameRun(r: Run, now: int, token: nat, cs: seq<Command>)
    ensures SameRun(r, Commit(r, now, token, cs))
  {
    ApplySameRun(r, now, token, cs);
  }

  lemma {:induction false} ApplySameRun(r: Run, now: int, token: nat, cs: seq<Command>)
    ensures SameRun(r, ApplyCommands(r, now, token, cs))
    decreases |cs|
  {
    if cs != [] && !IsTerminal(cs[0]) {
      ApplySameRun(ApplyCommand(r, now, token, cs[0]), now, token + TokensFor(cs[0]), cs[1..]);
    }
  }

  lemma StepKeepsRunSound(reg: Registry, c: System, a: Action, c': System, k: RunKey)
    requires Inv(reg, c) && Sound(reg, c) && Step(reg, c, a, c') && k in c'.store.runs
    ensures RunSound(reg, c'.store.runs[k])
  {
    hide Inv, Step, Quiet, Tracks, NewRun, CommitsTo, Stable;
    if k !in c.store.runs {
      NewRuns(reg, c, a, c', k);
      NewRunSound(reg, a.workflowType, a.queue, a.input, c.store.workflowSeq, c.store.now);
    } else {
      StepOnRun(reg, c, a, c', k);
      var r, r' := c.store.runs[k], c'.store.runs[k];
      assert RunSound(reg, r);
      if GrowsQuietly(r, r', c.store.workflowSeq) {
        if RunsStable(reg, r.workflowType) {
          TracksGrows(reg[r.workflowType], r.queue, r.history, r'.history);
        }
      } else {
        CommitSound(reg, c, a.message, k, c');
      }
    }
  }

  lemma NewBasisSound(reg: Registry, c: System, k: RunKey, identity: string, m: Message)
    requires Inv(reg, c) && Sound(reg, c) && PollableWorkflow(c.store, k) && Honest(reg, c.store, k, identity, m)
    ensures BasisSound(reg, m)
  {
    hide WellFormed, Live, TimersOf, Consistent, DecidesWithin;
    assert Indexed(c.store.runs[k]) && RunSound(reg, c.store.runs[k]);
  }

  lemma StepKeepsSound(reg: Registry, c: System, a: Action, c': System)
    requires Inv(reg, c) && Sound(reg, c) && Step(reg, c, a, c')
    ensures Sound(reg, c')
  {
    hide Inv, Step, RunSound, BasisSound, Honest;
    forall k | k in c'.store.runs
      ensures RunSound(reg, c'.store.runs[k])
    {
      StepKeepsRunSound(reg, c, a, c', k);
    }
    SentGrows(reg, c, a, c');
    forall m | m in c'.sent
      ensures BasisSound(reg, m)
    {
      if m !in c.sent {
        NewBasisSound(reg, c, a.key, a.identity, m);
      }
    }
  }

  lemma {:induction false} ReachableSound(reg: Registry, states: seq<System>, actions: seq<Action>, i: nat)
    requires Behavior(reg, states, actions) && i < |states|
    ensures Sound(reg, states[i])
  {
    hide Inv, Step, Sound;
    if i == 0 {
      InitSound(reg);
    } else {
      ReachableSound(reg, states, actions, i - 1);
      ReachableInv(reg, states, actions, i - 1);
      assert Taken(reg, states, actions, i - 1);
      StepKeepsSound(reg, states[i - 1], actions[i - 1], states[i]);
    }
  }

  lemma InitSound(reg: Registry)
    ensures Sound(reg, INIT)
  {
  }

  // ---------------------------------------------------------------- theorems

  /**
   Crash-resume refinement. Whatever the interleaving, redelivery, loss, duplication or delay, when a
   run of stable code has closed, its recorded close is the result of evaluating the code straight
   through, the i-th activity answering its recorded outcome and the k-th await of a name the k-th
   signal of that name. Every durable call of that evaluation is in the log, once and in order.
   */
  lemma CrashResume(reg: Registry, states: seq<System>, actions: seq<Action>, i: nat, k: RunKey) returns (n: nat)
    requires Behavior(reg, states, actions) && i < |states|
    requires k in states[i].store.runs && RunsStable(reg, states[i].store.runs[k].workflowType)
    requires states[i].store.runs[k].status != StatusRunning
    ensures var r := states[i].store.runs[k];
            var evaluation := Evaluate(reg[r.workflowType], r.queue, r.input, ScriptOf(ViewOf(r.history)), n);
            && evaluation.Finished?
            && CloseOf(r.history) == Some(evaluation.close)
            && Records(r.history) == evaluation.eval.records
            && r.status == (if evaluation.close.Succeed? then StatusCompleted else StatusFailed)
  {
    hide Step, Behavior, Evaluate, ScriptOf;
    var r := states[i].store.runs[k];
    ReachableInv(reg, states, actions, i);
    ReachableSound(reg, states, actions, i);
    assert Indexed(r) && RunSound(reg, r);
    RunInput(r);
    ClosedIffCloseOf(r.history);
    n :| ClosedAsEvaluated(reg[r.workflowType], r.queue, r.history, n);
  }

  /** The input replay sees is the input the run was started with. */
  lemma RunInput(r: Run)
    requires Indexed(r)
    ensures ViewOf(r.history).input == r.input
  {
    hide Live, TimersOf, StatusOf, Columns;
    InputKept(r.history);
  }

  lemma {:induction false} InputKept(h: seq<Event>)
    requires WellFormed(h) && h != [] && h[0].attrs.WorkflowStarted?
    ensures ViewOf(h).input == h[0].attrs.startInput
  {
    hide Legal;
    var init, e := h[..|h| - 1], h[|h| - 1];
    assert h == init + [e];
    if init == [] {
      assert ViewOf(init) == EMPTY_VIEW;
    } else {
      InputKept(init);
      GapFree(h, |h| - 1);
    }
  }

  /**
   No spurious nondeterminism. In every reachable state the recorded calls of a run are the first
   calls its code makes on the current log, so replaying it never reports a mismatch: a decision
   completes with exactly the close the code itself reaches.
   */
  lemma NoSpuriousNondeterminism(reg: Registry, states: seq<System>, actions: seq<Action>, i: nat, k: RunKey, d: Decision, n: nat)
    requires Behavior(reg, states, actions) && i < |states|
    requires k in states[i].store.runs && RunsStable(reg, states[i].store.runs[k].workflowType)
    requires var r := states[i].store.runs[k];
             !Closed(r.history) && DecidesWithin(reg[r.workflowType], r.queue, r.history, d, n)
    ensures var r := states[i].store.runs[k];
            Emits(d.commands, Records(r.history), Straight(reg[r.workflowType], r.queue, r.history, n))
  {
    hide Inv, Step, Behavior, Closed, DecidesWithin, Consistent, Emits, Straight, Records;
    ReachableSound(reg, states, actions, i);
    assert RunSound(reg, states[i].store.runs[k]);
    DecisionIsSurplus(reg[states[i].store.runs[k].workflowType], states[i].store.runs[k].queue, states[i].store.runs[k].history, d, n);
  }

  /**
   Logs are append-only over a whole behaviour: runs never disappear or change identity, histories
   only grow, and a run that has closed never reopens.
   */
  lemma {:induction false} AppendOnly(reg: Registry, states: seq<System>, actions: seq<Action>, i: nat, j: nat, k: RunKey)
    requires Behavior(reg, states, actions) && i <= j < |states| && k in states[i].store.runs
    ensures k in states[j].store.runs
    ensures var r, r' := states[i].store.runs[k], states[j].store.runs[k];
            SameRun(r, r') && r.history <= r'.history && (r.status != StatusRunning ==> r'.status == r.status)
  {
    hide Step, Inv;
    if i < j {
      AppendOnly(reg, states, actions, i, j - 1, k);
      ReachableInv(reg, states, actions, j - 1);
      assert Taken(reg, states, actions, j - 1);
      StepAppends(reg, states[j - 1], actions[j - 1], states[j], k);
    }
  }

  lemma StepAppends(reg: Registry, c: System, a: Action, c': System, k: RunKey)
    requires Inv(reg, c) && Step(reg, c, a, c') && k in c.store.runs
    ensures k in c'.store.runs
    ensures var r, r' := c.store.runs[k], c'.store.runs[k];
            SameRun(r, r') && r.history <= r'.history && (r.status != StatusRunning ==> r'.status == r.status)
  {
    hide Inv, Step, Quiet, CommitsTo;
    StepOnRun(reg, c, a, c', k);
    var r, r' := c.store.runs[k], c'.store.runs[k];
    if GrowsQuietly(r, r', c.store.workflowSeq) {
      QuietPrefix(r.history, r'.history);
    } else {
      CommitAppends(reg, c, a.message, k, c');
    }
  }

  lemma CommitAppends(reg: Registry, c: System, m: Message, k: RunKey, c': System)
    requires Inv(reg, c) && CommitsTo(c, m, k, c')
    ensures k in c'.store.runs
    ensures var r, r' := c.store.runs[k], c'.store.runs[k];
            SameRun(r, r') && r.history <= r'.history && (r.status != StatusRunning ==> r'.status == r.status)
  {
    hide Indexed, Quiet, DecidesWithin, ApplyCommands, TokensUsed, Closed, RowsEvolve;
    var r := c.store.runs[k];
    assert MessageOk(reg, c.store, m);
    CommitSameRun(r, c.store.now, c.store.activitySeq, m.decision.commands);
    DecisionOnClosed(reg[m.workflowType], m.queue, m.basis, r.history, m.decision, m.calls);
    ClosedStatus(r);
    ApplyNone(r, c.store.now, c.store.activitySeq);
    RowsKeep(c.store, k, r.activities);
    forall a | a in r.activities
      ensures r.activities[a].taskId < c.store.activitySeq
    {
      assert HoldsActivity(c.store, k, a, r.activities[a].taskId);
    }
    ApplyRows(r, c.store.now, c.store.activitySeq, m.decision.commands, c.store.activitySeq, r.activities);
  }

  lemma ClosedStatus(r: Run)
    requires Indexed(r)
    ensures r.status == StatusRunning <==> !Closed(r.history)
  {
    hide WellFormed, Live, TimersOf;
    ClosedIffCloseOf(r.history);
  }
}
