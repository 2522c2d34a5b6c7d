/**
 Leases do not guard responses. From any state in which a row can be handed out, its worker may answer
 after the lease has run out and be accepted. The second half gives a behaviour where that happens.
 */
module LateResponses {
  import opened Basics
  import opened History
  import opened Program
  import opened Replay
  import opened Backoff
  import opened Log
  import opened Store
  import opened System
  import opened Lease
  import opened Extensions
  import LostWakeup

  /** The row's lease is over at this state. */
  predicate LeaseOver(c: System, k: RunKey, s: int) {
    && k in c.store.runs && s in c.store.runs[k].activities
    && c.store.runs[k].activities[s].lockedUntil.Some? && c.store.runs[k].activities[s].lockedUntil.value <= c.store.now
  }

  /** Hand out, wait for the lease to run out, answer. */
  lemma LateResultAccepted(reg: Registry, states: seq<System>, actions: seq<Action>, k: RunKey, s: int, identity: string, lease: nat, result: Bytes)
    returns (states': seq<System>, actions': seq<Action>)
    requires Behavior(reg, states, actions)
    requires var c := states[|states| - 1].store; k in c.runs && Pollable(c.runs[k], s, c.now)
    ensures Behavior(reg, states', actions') && states <= states' && |states'| == |states| + 3
    ensures LeaseOver(states'[|states| + 1], k, s) && k in states'[|states| + 2].store.runs
    ensures var before, after := states'[|states| + 1].store.runs[k], states'[|states| + 2].store.runs[k];
            && actions'[|actions| + 2] == RespondCompleted(before.activities[s].taskId, identity, result)
            && after.history == before.history + [Event(before.nextEventId, states'[|states| + 1].store.now, ActivityCompleted(s, result))]
            && s !in after.activities
  {
    hide Step, Enqueue;
    var c0 := states[|states| - 1];
    var poll := PollActivity(k, s, identity, lease);
    var c1 := c0.(store := PollActivityTask(c0.store, k, s, identity, lease));
    Leased(reg, c0, k, s, identity, lease);
    var c2 := c1.(store := c1.store.(now := c1.store.now + lease));
    Ticks(reg, c1, lease);
    var respond := RespondCompleted(c2.store.runs[k].activities[s].taskId, identity, result);
    var c3 := c2.(store := CompleteActivityTask(c2.store, k, s, identity, result).0);
    Responds(reg, c2, k, s, identity, result);
    Extended(reg, states, actions, poll, c1);
    Extended(reg, states + [c1], actions + [poll], Tick(lease), c2);
    Extended(reg, states + [c1] + [c2], actions + [poll] + [Tick(lease)], respond, c3);
    states', actions' := states + [c1] + [c2] + [c3], actions + [poll] + [Tick(lease)] + [respond];
    EnqueueFrame();
  }

  /** The same for a decision. */
  lemma LateDecisionAccepted(reg: Registry, states: seq<System>, actions: seq<Action>, k: RunKey, lease: nat, m: Message)
    returns (states': seq<System>, actions': seq<Action>)
    requires Behavior(reg, states, actions)
    requires var c := states[|states| - 1].store; PollableWorkflow(c, k) && Honest(reg, c, k, m.identity, m)
    ensures Behavior(reg, states', actions') && states <= states' && |states'| == |states| + 3
    ensures var c := states'[|states| + 1].store;
            k in c.runs && c.runs[k].task.Some? && c.runs[k].task.value.lockedUntil.Some? && c.runs[k].task.value.lockedUntil.value <= c.now
    ensures actions'[|actions| + 2] == RespondWorkflow(m) && CommitsTo(states'[|states| + 1], m, k, states'[|states| + 2])
  {
    hide Step, Honest, CompleteWorkflowTask;
    var c0 := states[|states| - 1];
    var poll := PollWorkflow(k, m.identity, lease, {m});
    var c1 := c0.(store := PollWorkflowTask(c0.store, k, m.identity, lease), sent := c0.sent + {m});
    Handed(reg, c0, k, lease, m);
    var c2 := c1.(store := c1.store.(now := c1.store.now + lease));
    Ticks(reg, c1, lease);
    var c3 := c2.(store := CompleteWorkflowTask(c2.store, k, m.identity, m.decision.commands).0);
    Decides(reg, c2, k, m);
    Extended(reg, states, actions, poll, c1);
    Extended(reg, states + [c1], actions + [poll], Tick(lease), c2);
    Extended(reg, states + [c1] + [c2], actions + [poll] + [Tick(lease)], RespondWorkflow(m), c3);
    states', actions' := states + [c1] + [c2] + [c3], actions + [poll] + [Tick(lease)] + [RespondWorkflow(m)];
  }

  // ---------------------------------------------------------------- a concrete behaviour

  /** Two parallel activities have just been scheduled; the first is handed out for ten units. */
  lemma LateResultHappens() returns (states: seq<System>, actions: seq<Action>)
    ensures Behavior(LostWakeup.REGISTRY, states, actions) && |states| == 7
    ensures LeaseOver(states[5], LostWakeup.KEY, 2)
    ensures LostWakeup.KEY in states[6].store.runs && Completed(states[6].store.runs[LostWakeup.KEY].history, 2)
  {
    hide Step;
    LostWakeup.WakeupCanBeLost();
    var before, taken := LostWakeup.STATES[..4], LostWakeup.ACTIONS[..3];
    Prefix(LostWakeup.REGISTRY, LostWakeup.STATES, LostWakeup.ACTIONS, 3);
    states, actions := LateResultAccepted(LostWakeup.REGISTRY, before, taken, LostWakeup.KEY, 2, "w", 10, []);
    var h := states[6].store.runs[LostWakeup.KEY].history;
    assert h[|h| - 1].attrs == ActivityCompleted(2, []);
  }

  ghost predicate Completed(h: seq<Event>, s: int) {
    exists j :: 0 <= j < |h| && h[j].attrs.ActivityCompleted? && h[j].attrs.scheduledId == s
  }

  /** The first decision of that run, sent after its lease ran out. */
  lemma LateDecisionHappens() returns (states: seq<System>, actions: seq<Action>)
    ensures Behavior(LostWakeup.REGISTRY, states, actions) && |states| == 5
    ensures var c := states[3].store;
            && LostWakeup.KEY in c.runs && c.runs[LostWakeup.KEY].task.Some?
            && c.runs[LostWakeup.KEY].task.value.lockedUntil.Some? && c.runs[LostWakeup.KEY].task.value.lockedUntil.value <= c.now
    ensures CommitsTo(states[3], LostWakeup.FIRST, LostWakeup.KEY, states[4])
  {
    hide Step, CommitsTo, Honest;
    LostWakeup.WakeupCanBeLost();
    LostWakeup.FirstDecision();
    var before, taken := LostWakeup.STATES[..2], LostWakeup.ACTIONS[..1];
    Prefix(LostWakeup.REGISTRY, LostWakeup.STATES, LostWakeup.ACTIONS, 1);
    assert Honest(LostWakeup.REGISTRY, before[1].store, LostWakeup.KEY, "w", LostWakeup.FIRST) by { FirstIsHonest(); }
    states, actions := LateDecisionAccepted(LostWakeup.REGISTRY, before, taken, LostWakeup.KEY, 10, LostWakeup.FIRST);
  }

  lemma FirstIsHonest()
    ensures Honest(LostWakeup.REGISTRY, LostWakeup.STATES[1].store, LostWakeup.KEY, "w", LostWakeup.FIRST)
  {
    hide DecidesWithin;
    LostWakeup.FirstDecision();
  }
}
