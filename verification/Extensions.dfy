/** Single moves that are always possible: what a worker, the clock or the timer service can do next. */
module Extensions {
  import opened Basics
  import opened History
  import opened Program
  import opened Replay
  import opened Backoff
  import opened Log
  import opened Store
  import opened System

  lemma Extended(reg: Registry, states: seq<System>, actions: seq<Action>, a: Action, c: System)
    requires Behavior(reg, states, actions) && Step(reg, states[|states| - 1], a, c)
    ensures Behavior(reg, states + [c], actions + [a])
  {
    hide Step;
    forall i: nat | i < |actions| + 1
      ensures Taken(reg, states + [c], actions + [a], i)
    {
      if i < |actions| {
        assert Taken(reg, states, actions, i);
      }
    }
  }

  lemma Leased(reg: Registry, c: System, k: RunKey, s: int, identity: string, lease: nat)
    requires k in c.store.runs && Pollable(c.store.runs[k], s, c.store.now)
    ensures var c' := c.(store := PollActivityTask(c.store, k, s, identity, lease));
            && Step(reg, c, PollActivity(k, s, identity, lease), c')
            && k in c'.store.runs && s in c'.store.runs[k].activities && c'.store.now == c.store.now
            && c'.store.runs[k].activities[s].lockedBy == Some(identity)
            && c'.store.runs[k].activities[s].lockedUntil == Some(c.store.now + lease)
  {
    hide Append;
  }

  lemma Ticks(reg: Registry, c: System, elapsed: nat)
    ensures Step(reg, c, Tick(elapsed), c.(store := c.store.(now := c.store.now + elapsed)))
  {
  }

  lemma Responds(reg: Registry, c: System, k: RunKey, s: int, identity: string, result: Bytes)
    requires k in c.store.runs && s in c.store.runs[k].activities
    ensures Step(reg, c, RespondCompleted(c.store.runs[k].activities[s].taskId, identity, result),
                 c.(store := CompleteActivityTask(c.store, k, s, identity, result).0))
  {
    hide CompleteActivityTask;
    assert HoldsActivity(c.store, k, s, c.store.runs[k].activities[s].taskId);
  }

  lemma Handed(reg: Registry, c: System, k: RunKey, lease: nat, m: Message)
    requires PollableWorkflow(c.store, k) && Honest(reg, c.store, k, m.identity, m)
    ensures var c' := c.(store := PollWorkflowTask(c.store, k, m.identity, lease), sent := c.sent + {m});
            && Step(reg, c, PollWorkflow(k, m.identity, lease, {m}), c')
            && HoldsWorkflow(c'.store, k, m.token) && OwnsWorkflow(c'.store.runs[k], m.identity)
            && c'.store.runs[k].task.value.lockedUntil == Some(c.store.now + lease) && c'.store.now == c.store.now
  {
    hide DecidesWithin;
  }

  lemma Decides(reg: Registry, c: System, k: RunKey, m: Message)
    requires m in c.sent && HoldsWorkflow(c.store, k, m.token)
    ensures Step(reg, c, RespondWorkflow(m), c.(store := CompleteWorkflowTask(c.store, k, m.identity, m.decision.commands).0))
  {
    hide CompleteWorkflowTask;
  }

  /** A single due timer can be fired by itself. */
  lemma FiresAlone(reg: Registry, c: System, k: RunKey, t: int)
    requires k in c.store.runs && Due(c.store.runs[k], t, c.store.now)
    ensures Step(reg, c, FireTimers([(k, t)]), c.(store := FireOne(c.store, k, t)))
  {
    hide FireOne;
    assert FiresAll(FireOne(c.store, k, t), [], FireOne(c.store, k, t));
    assert [(k, t)][1..] == [];
  }
}
