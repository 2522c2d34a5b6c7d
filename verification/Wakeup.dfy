/**
 Lost wake-ups. A pending workflow task absorbs later enqueues, and committing deletes it. An event
 that lands between the poll and the commit is therefore not followed by a task of its own. This is
 the only way a running execution can be left with unseen events and no task.
 */
module Wakeup {
  import opened Basics
  import opened History
  import opened Program
  import opened Replay
  import opened ReplayTheorems
  import opened Growth
  import opened Log
  import opened Store
  import opened RunInvariant
  import opened System
  import opened Durability

  /** Running with something the first `seen` events do not show implies a pending task. */
  ghost predicate Awake(r: Run, seen: nat) {
    r.status == StatusRunning && WokenSince(seen, r.history) ==> r.task.Some?
  }

  /** Nothing the code could react to was written between the poll and this commit. */
  ghost predicate CleanCommit(c: System, m: Message, k: RunKey)
    requires k in c.store.runs
  {
    !WokenSince(|m.basis|, c.store.runs[k].history)
  }

  /** Commits write recorded calls or a close, which wake nobody. */
  lemma {:induction false} AppliedDoesNotWake(r: Run, now: int, token: nat, cs: seq<Command>, n: nat)
    requires n <= |r.history|
    ensures WokenSince(n, ApplyCommands(r, now, token, cs).history) <==> WokenSince(n, r.history)
    decreases |cs|
  {
    hide WokenSince, ApplyCommand;
    if cs != [] {
      CommandDoesNotWake(r, now, token, cs[0], n);
      if !IsTerminal(cs[0]) {
        AppliedDoesNotWake(ApplyCommand(r, now, token, cs[0]), now, token + TokensFor(cs[0]), cs[1..], n);
      }
    }
  }

  lemma CommandDoesNotWake(r: Run, now: int, token: nat, c: Command, n: nat)
    requires n <= |r.history|
    ensures var r' := ApplyCommand(r, now, token, c);
            n <= |r'.history| && (WokenSince(n, r'.history) <==> WokenSince(n, r.history))
  {
    var r' := ApplyCommand(r, now, token, c);
    if WokenSince(n, r.history) {
      var j :| n <= j < |r.history| && IsWake(r.history[j].attrs);
      assert IsWake(r'.history[j].attrs);
    }
  }

  /** A decision that completes ends with a terminal command, unless the log it saw was closed. */
  lemma {:induction false} TerminalCloses(r: Run, now: int, token: nat, cs: seq<Command>)
    ensures ApplyCommands(r, now, token, cs).status == StatusRunning
            <==> r.status == StatusRunning && forall c :: c in cs ==> !IsTerminal(c)
    decreases |cs|
  {
    if cs != [] {
      assert forall c :: c in cs <==> c == cs[0] || c in cs[1..];
      if !IsTerminal(cs[0]) {
        TerminalCloses(ApplyCommand(r, now, token, cs[0]), now, token + TokensFor(cs[0]), cs[1..]);
      }
    }
  }

  lemma CompletionIsTerminal(code: Code, queue: string, h: seq<Event>, d: Decision, n: nat)
    requires DecidesWithin(code, queue, h, d, n) && !Closed(h)
    ensures d.completed <==> exists c :: c in d.commands && IsTerminal(c)
  {
    hide ViewOf, ReplayRun, Closed;
    ViewProjects(h);
    CommandsAreCalls(code, queue, ViewOf(h), n);
    if d.completed {
      assert d.commands[|d.commands| - 1] in d.commands;
    }
  }

  /** A commit leaves the run open exactly if it was open and the decision does not complete it. */
  lemma StaysOpen(reg: Registry, c: System, m: Message, k: RunKey, c': System)
    requires Inv(reg, c) && CommitsTo(c, m, k, c')
    ensures k in c'.store.runs
    ensures c'.store.runs[k].status == StatusRunning <==> c.store.runs[k].status == StatusRunning && !m.decision.completed
  {
    hide Indexed, DecidesWithin, ApplyCommands, TokensUsed, Closed, Quiet, TokensKnown, TokensUnique, OneRunning;
    var r := c.store.runs[k];
    assert MessageOk(reg, c.store, m) && Indexed(r);
    ClosedStatus(r);
    QuietGrowth(m.basis, r.history);
    TerminalCloses(r, c.store.now, c.store.activitySeq, m.decision.commands);
    if !Closed(r.history) {
      CompletionIsTerminal(reg[m.workflowType], m.queue, m.basis, m.decision, m.calls);
    }
  }

  /**
   The exact condition at a commit, decidable before it. Afterwards the run has a task for whatever the
   decision had not seen if and only if the commit was clean, or the run had closed or closes with it.
   */
  lemma AwakeAfterCommit(reg: Registry, c: System, m: Message, k: RunKey, c': System)
    requires Inv(reg, c) && CommitsTo(c, m, k, c')
    ensures k in c'.store.runs
    ensures Awake(c'.store.runs[k], |m.basis|)
            <==> CleanCommit(c, m, k) || c.store.runs[k].status != StatusRunning || m.decision.completed
  {
    hide Indexed, DecidesWithin, ApplyCommands, WokenSince, TokensUsed;
    assert MessageOk(reg, c.store, m);
    StaysOpen(reg, c, m, k, c');
    assert |m.basis| <= |c.store.runs[k].history|;
    AppliedDoesNotWake(c.store.runs[k], c.store.now, c.store.activitySeq, m.decision.commands, |m.basis|);
  }

  // ---------------------------------------------------------------- over behaviours

  /** Message m was committed to k by the i-th step. */
  ghost predicate CommittedAt(states: seq<System>, actions: seq<Action>, i: nat, k: RunKey)
    requires |states| == |actions| + 1 && i < |actions|
  {
    actions[i].RespondWorkflow? && CommitsTo(states[i], actions[i].message, k, states[i + 1])
  }

  /** The length of the history behind the last decision committed to k before state i. */
  ghost function Seen(states: seq<System>, actions: seq<Action>, i: nat, k: RunKey): nat
    requires |states| == |actions| + 1 && i < |states|
  {
    if i == 0 then 0
    else if CommittedAt(states, actions, i - 1, k) then |actions[i - 1].message.basis|
    else Seen(states, actions, i - 1, k)
  }

  /** The length of the history right after that commit. */
  ghost function Base(states: seq<System>, actions: seq<Action>, i: nat, k: RunKey): nat
    requires |states| == |actions| + 1 && i < |states|
  {
    if i == 0 then 0
    else if CommittedAt(states, actions, i - 1, k) && k in states[i].store.runs then |states[i].store.runs[k].history|
    else Base(states, actions, i - 1, k)
  }

  /** Nothing to react to landed between the last commit's poll and that commit; earlier ones do not matter. */
  ghost predicate LastCommitClean(states: seq<System>, actions: seq<Action>, i: nat, k: RunKey)
    requires |states| == |actions| + 1 && i < |states|
  {
    if i == 0 then true
    else if CommittedAt(states, actions, i - 1, k) then CleanCommit(states[i - 1], actions[i - 1].message, k)
    else LastCommitClean(states, actions, i - 1, k)
  }

  /** What one step does to a pending task and to the log, as far as waking is concerned. */
  lemma StepWakes(reg: Registry, states: seq<System>, actions: seq<Action>, i: nat, k: RunKey)
    requires Behavior(reg, states, actions) && i < |actions| && k in states[i + 1].store.runs
    ensures var r' := states[i + 1].store.runs[k];
            if k !in states[i].store.runs then
              !CommittedAt(states, actions, i, k) && |r'.history| == 1 && r'.task.Some? && IsWake(r'.history[0].attrs)
            else
              var r := states[i].store.runs[k];
              && r.history <= r'.history
              && (CommittedAt(states, actions, i, k) ==> r'.task.None?)
              && (!CommittedAt(states, actions, i, k) ==> WakesExactly(r, r'))
  {
    hide Step, Inv, SameRun, WakesExactly, NewRun, ApplyCommands, TokensUsed, OwnsWorkflow;
    ReachableInv(reg, states, actions, i);
    if k in states[i].store.runs {
      assert Taken(reg, states, actions, i);
      StepAppends(reg, states[i], actions[i], states[i + 1], k);
      StepOnRun(reg, states[i], actions[i], states[i + 1], k);
    } else {
      NewRuns(reg, states[i], actions[i], states[i + 1], k);
      NewRunWoken(actions[i].workflowType, actions[i].queue, actions[i].input, states[i].store.workflowSeq, states[i].store.now);
    }
  }

  lemma NewRunWoken(workflowType: string, queue: string, input: Bytes, token: nat, now: int)
    ensures var r := NewRun(workflowType, queue, input, token, now);
            |r.history| == 1 && r.task.Some? && IsWake(r.history[0].attrs)
  {
  }

  lemma WokenAcross(a: nat, h: seq<Event>, h': seq<Event>)
    requires a <= |h| && h <= h'
    ensures WokenSince(a, h') <==> WokenSince(a, h) || WokenSince(|h|, h')
  {
    if WokenSince(a, h) {
      var j :| a <= j < |h| && IsWake(h[j].attrs);
      assert IsWake(h'[j].attrs);
    }
    if WokenSince(a, h') {
      var j :| a <= j < |h'| && IsWake(h'[j].attrs);
      assert j < |h| ==> IsWake(h[j].attrs);
    }
  }

  /**
   When a task is pending. In every reachable state a run has a pending workflow task if and only if
   something to react to was written after its last commit, or since its start without one.
   */
  lemma {:induction false} PendingExactly(reg: Registry, states: seq<System>, actions: seq<Action>, i: nat, k: RunKey)
    requires Behavior(reg, states, actions) && i < |states|
    ensures k !in states[i].store.runs ==> Base(states, actions, i, k) == 0
    ensures k in states[i].store.runs ==>
              var r, base := states[i].store.runs[k], Base(states, actions, i, k);
              base <= |r.history| && (r.task.Some? <==> WokenSince(base, r.history))
  {
    hide Step, Inv, CommitsTo, WokenSince;
    if i > 0 {
      PendingExactly(reg, states, actions, i - 1, k);
      if k in states[i].store.runs {
        StepWakes(reg, states, actions, i - 1, k);
        var r' := states[i].store.runs[k];
        NothingSince(r'.history);
        if k in states[i - 1].store.runs {
          WokenAcross(Base(states, actions, i - 1, k), states[i - 1].store.runs[k].history, r'.history);
        }
      } else {
        RunsStay(reg, states, actions, i - 1, k);
      }
    }
  }

  lemma NothingSince(h: seq<Event>)
    ensures !WokenSince(|h|, h)
    ensures |h| == 1 && IsWake(h[0].attrs) ==> WokenSince(0, h)
  {
  }

  lemma RunsStay(reg: Registry, states: seq<System>, actions: seq<Action>, i: nat, k: RunKey)
    requires Behavior(reg, states, actions) && i < |actions| && k !in states[i + 1].store.runs
    ensures k !in states[i].store.runs
  {
    hide Step, Inv, SameRun;
    ReachableInv(reg, states, actions, i);
    if k in states[i].store.runs {
      assert Taken(reg, states, actions, i);
      StepAppends(reg, states[i], actions[i], states[i + 1], k);
    }
  }

  /** Commits write recorded calls or a close, so what the last decision missed is in the window or after the commit. */
  lemma CommitSees(reg: Registry, c: System, m: Message, k: RunKey, c': System)
    requires Inv(reg, c) && CommitsTo(c, m, k, c')
    ensures k in c.store.runs && k in c'.store.runs
    ensures |m.basis| <= |c'.store.runs[k].history|
    ensures WokenSince(|m.basis|, c'.store.runs[k].history) <==> !CleanCommit(c, m, k)
  {
    hide Indexed, DecidesWithin, ApplyCommands, WokenSince, TokensUsed;
    assert MessageOk(reg, c.store, m);
    CommitAppends(reg, c, m, k, c');
    AppliedDoesNotWake(c.store.runs[k], c.store.now, c.store.activitySeq, m.decision.commands, |m.basis|);
  }

  lemma {:induction false} UnseenExactly(reg: Registry, states: seq<System>, actions: seq<Action>, i: nat, k: RunKey)
    requires Behavior(reg, states, actions) && i < |states|
    ensures k !in states[i].store.runs ==> Seen(states, actions, i, k) == 0 && LastCommitClean(states, actions, i, k)
    ensures k in states[i].store.runs ==>
              var h := states[i].store.runs[k].history;
              && Seen(states, actions, i, k) <= |h|
              && (WokenSince(Seen(states, actions, i, k), h)
                  <==> !LastCommitClean(states, actions, i, k) || WokenSince(Base(states, actions, i, k), h))
  {
    hide Step, Inv, CommitsTo, WokenSince, CleanCommit;
    if i > 0 {
      UnseenExactly(reg, states, actions, i - 1, k);
      PendingExactly(reg, states, actions, i - 1, k);
      if k in states[i].store.runs {
        StepWakes(reg, states, actions, i - 1, k);
        var h' := states[i].store.runs[k].history;
        if CommittedAt(states, actions, i - 1, k) {
          ReachableInv(reg, states, actions, i - 1);
          NothingSince(h');
          assert Taken(reg, states, actions, i - 1);
          CommitSees(reg, states[i - 1], actions[i - 1].message, k, states[i]);
        } else if k in states[i - 1].store.runs {
          WokenAcross(Base(states, actions, i - 1, k), states[i - 1].store.runs[k].history, h');
          WokenAcross(Seen(states, actions, i - 1, k), states[i - 1].store.runs[k].history, h');
        } else {
          FirstBase(reg, states, actions, i - 1, k);
        }
      } else {
        RunsStay(reg, states, actions, i - 1, k);
        NotCommitted(states, actions, i - 1, k);
      }
    }
  }

  lemma FirstBase(reg: Registry, states: seq<System>, actions: seq<Action>, i: nat, k: RunKey)
    requires Behavior(reg, states, actions) && i < |states| && k !in states[i].store.runs
    ensures Base(states, actions, i, k) == 0
  {
    hide Step, Base, WokenSince;
    PendingExactly(reg, states, actions, i, k);
  }

  lemma NotCommitted(states: seq<System>, actions: seq<Action>, i: nat, k: RunKey)
    requires |states| == |actions| + 1 && i < |actions| && k !in states[i].store.runs
    ensures !CommittedAt(states, actions, i, k)
  {
    hide CompleteWorkflowTask;
  }

  /**
   Lost wake-ups, exactly. In every reachable state a run has the wake-up it is owed, a pending task
   for what its last decision did not see, if and only if it has closed, its last commit was clean, or
   something else to react to has arrived since that commit.
   */
  lemma AwakeExactly(reg: Registry, states: seq<System>, actions: seq<Action>, i: nat, k: RunKey)
    requires Behavior(reg, states, actions) && i < |states| && k in states[i].store.runs
    ensures var r := states[i].store.runs[k];
            Awake(r, Seen(states, actions, i, k))
            <==> r.status != StatusRunning || LastCommitClean(states, actions, i, k)
                 || WokenSince(Base(states, actions, i, k), r.history)
  {
    hide Behavior, WokenSince, Seen, Base, LastCommitClean;
    UnseenExactly(reg, states, actions, i, k);
    PendingExactly(reg, states, actions, i, k);
  }

  /**
   No lost wake-up. If nothing to react to landed between the last committed decision's poll and its
   commit, a running execution whose history holds an event that decision did not see has a task.
   */
  lemma NoLostWakeup(reg: Registry, states: seq<System>, actions: seq<Action>, i: nat, k: RunKey)
    requires Behavior(reg, states, actions) && i < |states| && k in states[i].store.runs
    requires LastCommitClean(states, actions, i, k)
    ensures Awake(states[i].store.runs[k], Seen(states, actions, i, k))
  {
    hide Behavior, Awake, Seen, Base, LastCommitClean;
    AwakeExactly(reg, states, actions, i, k);
  }
}
