/** The worker's handler: what it sends for a polled task is an honest message of the system. */
module Worker {
  import opened Basics
  import opened History
  import opened Program
  import opened Replay
  import opened Environment
  import opened Log
  import opened Store
  import opened RunInvariant
  import opened System
  import opened Postgres

  /** Replay of the polled history stops within n calls. */
  ghost predicate Stops(code: Code, queue: string, h: seq<Event>, wallClock: int, n: nat) {
    ViewOf(h).terminated || !ReplayRun(code, queue, Grounded(ViewOf(h), wallClock), n).Going?
  }

  /** What the handler sends for a task it can process: the decision of replaying the polled history. */
  ghost predicate Decided(code: Code, queue: string, task: PolledWorkflow, wallClock: int, n: nat, d: Decision)
    requires Stops(code, queue, task.history, wallClock, n)
  {
    if ViewOf(task.history).terminated then d == Decision([], true)
    else Concludes(code, queue, Grounded(ViewOf(task.history), wallClock), n, d)
  }

  class WorkflowWorker {
    const identity: string
    const taskQueue: string
    var workflows: map<string, Code>

    constructor (identity: string, taskQueue: string)
      ensures this.identity == identity && this.taskQueue == taskQueue && workflows == map[]
    {
      this.identity, this.taskQueue := identity, taskQueue;
      workflows := map[];
    }

    method RegisterWorkflow(name: string, definition: Code)
      modifies this
      ensures workflows == old(workflows)[name := definition]
    {
      workflows := workflows[name := definition];
    }

    /** Replay a polled task; an unregistered type is left for another worker. */
    method HandleWorkflowTask(task: PolledWorkflow, wallClock: int, ghost n: nat) returns (response: Option<Decision>)
      requires task.workflowType in workflows ==> Stops(workflows[task.workflowType], taskQueue, task.history, wallClock, n)
      ensures response.Some? <==> task.workflowType in workflows
      ensures response.Some? ==> Decided(workflows[task.workflowType], taskQueue, task, wallClock, n, response.value)
    {
      if task.workflowType !in workflows {
        return None;
      }
      hide Concludes, ReplayRun, ViewOf;
      var decision := Execute(workflows[task.workflowType], taskQueue, task.history, wallClock, n);
      return Some(decision);
    }
  }

  /**
   The message built from a polled task and the handler's decision is honest, so every theorem about
   the system covers what a worker running stable code on this queue sends.
   */
  lemma HandlerIsHonest(reg: Registry, s: State, queue: string, identity: string, task: PolledWorkflow, wallClock: int, n: nat, d: Decision)
    requires ReadyOn(s, task.key, queue) && Delivers(s, task)
    requires task.workflowType in reg && Stable(reg[task.workflowType])
    requires Stops(reg[task.workflowType], queue, task.history, wallClock, n)
    requires Decided(reg[task.workflowType], queue, task, wallClock, n, d)
    ensures Honest(reg, s, task.key, identity,
                   Message(task.token, identity, d, task.key, task.workflowType, queue, task.history, n))
  {
    hide Stable, ReplayRun, ViewOf, Concludes, DecidesWithin;
    ExecuteDecides(reg[task.workflowType], queue, task.history, wallClock, n, d);
  }
}
