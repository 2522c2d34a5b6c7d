/**
 Store and workers composed. A worker polls a task, replays the polled history and sends a decision.
 Messages are never removed from `sent`: delivering one late, twice, or never are all behaviours.
 Activity responses and heartbeats are unconstrained, so they too may be stale, forged or repeated.
 */
module System {
  import opened Basics
  import opened History
  import opened Program
  import opened Replay
  import opened ReplayTheorems
  import opened Growth
  import opened Backoff
  import opened Log
  import opened Store
  import opened RunInvariant

  /** The definitions every worker has registered, by type name. */
  type Registry = map<string, Code>

  /**
   A decision in flight. The store sees token, identity and commands; the rest records where the
   decision came from: the run, the history it was computed on and the number of calls it took.
   */
  datatype Message = Message(
    token: nat, identity: string, decision: Decision,
    key: RunKey, workflowType: string, queue: string, basis: seq<Event>, calls: nat)

  datatype System = System(store: State, sent: set<Message>)

  datatype Action =
    | Start(key: RunKey, workflowType: string, queue: string, input: Bytes)
    | Signal(key: RunKey, name: string, input: Bytes)
    | PollWorkflow(key: RunKey, identity: string, lease: int, sent: set<Message>)
    | RespondWorkflow(message: Message)
    | PollActivity(key: RunKey, scheduledId: int, identity: string, lease: int)
    | RespondCompleted(token: nat, identity: string, result: Bytes)
    | RespondFailed(token: nat, identity: string, failure: Option<Failure>, retryable: bool, outOfRange: int)
    | Heartbeat(token: nat, lease: int)
    | FireTimers(due: seq<(RunKey, int)>)
    | Tick(elapsed: nat)

  const INIT := System(State(map[], 1, 1, 0), {})

  /** What the handler sends for a polled task: the decision replay reaches on the polled history. */
  ghost predicate Honest(reg: Registry, s: State, k: RunKey, identity: string, m: Message)
    requires k in s.runs && s.runs[k].task.Some?
  {
    var r := s.runs[k];
    && m.token == r.task.value.taskId && m.identity == identity
    && m.key == k && m.workflowType == r.workflowType && m.queue == r.task.value.queue && m.basis == r.history
    && m.workflowType in reg
    && DecidesWithin(reg[m.workflowType], m.queue, m.basis, m.decision, m.calls)
  }

  /** Due timers fire one after another within one transaction. */
  ghost predicate FiresAll(s: State, due: seq<(RunKey, int)>, s': State)
    decreases |due|
  {
    if due == [] then s' == s
    else
      && due[0].0 in s.runs && Due(s.runs[due[0].0], due[0].1, s.now)
      && FiresAll(FireOne(s, due[0].0, due[0].1), due[1..], s')
  }

  ghost predicate Step(reg: Registry, c: System, a: Action, c': System) {
    var s := c.store;
    match a
    case Start(k, workflowType, queue, input) =>
      c'.sent == c.sent && exists reply :: StartWorkflow(s, k, workflowType, queue, input, c'.store, reply)
    case Signal(k, name, input) => c' == c.(store := SignalWorkflow(s, k, name, input).0)
    case PollWorkflow(k, identity, lease, sent) =>
      && PollableWorkflow(s, k)
      && (forall m :: m in sent ==> Honest(reg, s, k, identity, m))
      && c' == System(PollWorkflowTask(s, k, identity, lease), c.sent + sent)
    case RespondWorkflow(m) =>
      && m in c.sent
      && ((exists k :: HoldsWorkflow(s, k, m.token)
                       && c' == c.(store := CompleteWorkflowTask(s, k, m.identity, m.decision.commands).0))
          || ((forall k :: !HoldsWorkflow(s, k, m.token)) && c' == c))
    case PollActivity(k, a, identity, lease) =>
      k in s.runs && Pollable(s.runs[k], a, s.now) && c' == c.(store := PollActivityTask(s, k, a, identity, lease))
    case RespondCompleted(token, identity, result) =>
      || (exists k, a :: HoldsActivity(s, k, a, token)
                         && c' == c.(store := CompleteActivityTask(s, k, a, identity, result).0))
      || ((forall k, a :: !HoldsActivity(s, k, a, token)) && c' == c)
    case RespondFailed(token, identity, failure, retryable, outOfRange) =>
      || (exists k, a :: HoldsActivity(s, k, a, token)
                         && c' == c.(store := FailActivityTask(s, k, a, identity, failure, retryable, outOfRange).0))
      || ((forall k, a :: !HoldsActivity(s, k, a, token)) && c' == c)
    case Heartbeat(token, lease) =>
      || (exists k, a :: HoldsActivity(s, k, a, token) && c' == c.(store := ExtendActivityLease(s, k, a, lease).0))
      || ((forall k, a :: !HoldsActivity(s, k, a, token)) && c' == c)
    case FireTimers(due) => c'.sent == c.sent && FiresAll(s, due, c'.store)
    case Tick(elapsed) => c' == c.(store := s.(now := s.now + elapsed))
  }

  /** The i-th action leads from the i-th state to the next. */
  ghost predicate Taken(reg: Registry, states: seq<System>, actions: seq<Action>, i: nat)
    requires |states| == |actions| + 1 && i < |actions|
  {
    Step(reg, states[i], actions[i], states[i + 1])
  }

  /** A run of the whole system: states, and the action taken between consecutive ones. */
  ghost predicate Behavior(reg: Registry, states: seq<System>, actions: seq<Action>) {
    && |states| == |actions| + 1
    && states[0] == INIT
    && forall i: nat :: i < |actions| ==> Taken(reg, states, actions, i)
  }

  lemma Prefix(reg: Registry, states: seq<System>, actions: seq<Action>, n: nat)
    requires Behavior(reg, states, actions) && n <= |actions|
    ensures Behavior(reg, states[..n + 1], actions[..n])
  {
    hide Step;
    var before, taken := states[..n + 1], actions[..n];
    forall i: nat | i < n
      ensures Taken(reg, before, taken, i)
    {
      assert Taken(reg, states, actions, i);
    }
  }

  // ---------------------------------------------------------------- the invariant

  ghost predicate TokensKnown(s: State) {
    && (forall k, t :: HoldsWorkflow(s, k, t) ==> t < s.workflowSeq)
    && (forall k, a, t :: HoldsActivity(s, k, a, t) ==> t < s.activitySeq)
  }

  /** A token names at most one row. */
  ghost predicate TokensUnique(s: State) {
    && (forall k, k', t :: HoldsWorkflow(s, k, t) && HoldsWorkflow(s, k', t) ==> k == k')
    && (forall k, a, k', a', t :: HoldsActivity(s, k, a, t) && HoldsActivity(s, k', a', t) ==> k == k' && a == a')
  }

  ghost predicate AllIndexed(s: State) {
    forall k {:trigger Indexed(s.runs[k])} :: k in s.runs ==> Indexed(s.runs[k])
  }

  /** At most one running execution per workflow id. */
  ghost predicate OneRunning(s: State) {
    forall k, k', w :: RunningUnder(s, k, w) && RunningUnder(s, k', w) ==> k == k'
  }

  /** A decision whose token is live was computed on a log that has since grown only quietly. */
  ghost predicate Current(reg: Registry, s: State, m: Message) {
    && m.key in s.runs
    && s.runs[m.key].workflowType == m.workflowType && s.runs[m.key].queue == m.queue
    && Quiet(m.basis, s.runs[m.key].history)
    && m.workflowType in reg
    && DecidesWithin(reg[m.workflowType], m.queue, m.basis, m.decision, m.calls)
  }

  ghost predicate MessageOk(reg: Registry, s: State, m: Message) {
    && m.token < s.workflowSeq
    && forall k :: HoldsWorkflow(s, k, m.token) ==> k == m.key && Current(reg, s, m)
  }

  ghost predicate MessagesOk(reg: Registry, c: System) {
    forall m {:trigger MessageOk(reg, c.store, m)} :: m in c.sent ==> MessageOk(reg, c.store, m)
  }

  ghost predicate Inv(reg: Registry, c: System) {
    && AllIndexed(c.store)
    && TokensKnown(c.store)
    && TokensUnique(c.store)
    && OneRunning(c.store)
    && MessagesOk(reg, c)
  }

  // ---------------------------------------------------------------- one run moves, the rest stays

  /** The task row stays, goes, or is a new one; while it stays the log grows quietly. */
  ghost predicate TaskEvolves(r: Run, r': Run, seq0: nat, seq1: nat) {
    || r'.task.None?
    || (r.task.Some? && r'.task.Some? && r'.task.value.taskId == r.task.value.taskId && Quiet(r.history, r'.history))
    || (r.task.None? && r'.task.Some? && r'.task.value.taskId == seq0 < seq1)
  }

  ghost predicate RowsEvolve(m: map<int, ActivityTask>, m': map<int, ActivityTask>, seq0: nat, seq1: nat) {
    && (forall a :: a in m' ==> (a in m && m'[a].taskId == m[a].taskId) || seq0 <= m'[a].taskId < seq1)
    && (forall a, b :: a in m' && b in m' && m'[a].taskId == m'[b].taskId ==> a == b)
  }

  ghost predicate Evolves(r: Run, r': Run, s: State, s': State) {
    && Indexed(r')
    && r'.workflowType == r.workflowType && r'.queue == r.queue
    && r.history <= r'.history
    && (r'.status == StatusRunning ==> r.status == StatusRunning)
    && s.workflowSeq <= s'.workflowSeq && s.activitySeq <= s'.activitySeq
    && TaskEvolves(r, r', s.workflowSeq, s'.workflowSeq)
    && RowsEvolve(r.activities, r'.activities, s.activitySeq, s'.activitySeq)
  }

  ghost predicate Moves(s: State, k: RunKey, s': State) {
    && k in s.runs && k in s'.runs
    && s'.runs == s.runs[k := s'.runs[k]]
    && Evolves(s.runs[k], s'.runs[k], s, s')
  }

  lemma MovesTokens(s: State, k: RunKey, s': State)
    requires Moves(s, k, s') && TokensKnown(s) && TokensUnique(s)
    ensures TokensKnown(s') && TokensUnique(s')
  {
    hide Indexed, Quiet;
    WorkflowTokenOrigin(s, k, s');
    ActivityTokenOrigin(s, k, s');
  }

  lemma WorkflowTokenOrigin(s: State, k: RunKey, s': State)
    requires Moves(s, k, s')
    ensures forall k', t :: HoldsWorkflow(s', k', t) ==>
              HoldsWorkflow(s, k', t) || (k' == k && s.workflowSeq <= t < s'.workflowSeq)
  {
    hide Indexed, Quiet;
  }

  lemma ActivityTokenOrigin(s: State, k: RunKey, s': State)
    requires Moves(s, k, s')
    ensures forall k', a, t :: HoldsActivity(s', k', a, t) ==>
              HoldsActivity(s, k', a, t) || (k' == k && s.activitySeq <= t < s'.activitySeq)
  {
    hide Indexed, Quiet;
  }

  lemma QuietTransitive(a: seq<Event>, b: seq<Event>, c: seq<Event>)
    requires Quiet(a, b) && Quiet(b, c)
    ensures Quiet(a, c)
  {
    hide Admissible;
    forall i | |a| <= i < |c|
      ensures Admissible(c[..i], c[i]) && !IsRecord(c[i].attrs) && !IsClose(c[i].attrs)
    {
      if i < |b| {
        assert c[..i] == b[..i] && c[i] == b[i];
      }
    }
  }

  lemma MovesMessage(reg: Registry, s: State, k: RunKey, s': State, m: Message)
    requires Moves(s, k, s') && TokensKnown(s) && MessageOk(reg, s, m)
    ensures MessageOk(reg, s', m)
  {
    hide Indexed, Quiet, DecidesWithin, RowsEvolve;
    WorkflowTokenOrigin(s, k, s');
    forall k' | HoldsWorkflow(s', k', m.token)
      ensures k' == m.key && Current(reg, s', m)
    {
      assert HoldsWorkflow(s, k', m.token);
      if k' == k {
        QuietTransitive(m.basis, s.runs[k].history, s'.runs[k].history);
      }
    }
  }

  lemma MovesKeepsInv(reg: Registry, c: System, k: RunKey, c': System)
    requires Inv(reg, c) && Moves(c.store, k, c'.store) && c'.sent == c.sent
    ensures Inv(reg, c')
  {
    hide Indexed, MessageOk, TokensKnown, TokensUnique, TaskEvolves, RowsEvolve;
    MovesTokens(c.store, k, c'.store);
    forall m | m in c'.sent
      ensures MessageOk(reg, c'.store, m)
    {
      MovesMessage(reg, c.store, k, c'.store, m);
    }
    assert forall k', w :: RunningUnder(c'.store, k', w) ==> RunningUnder(c.store, k', w);
  }

  // ---------------------------------------------------------------- every transaction moves one run

  /** One more event that is neither a recorded call nor a close is quiet growth. */
  lemma QuietEvent(r: Run, r': Run)
    requires Indexed(r) && Indexed(r') && |r'.history| == |r.history| + 1 && r.history <= r'.history
    requires !IsRecord(r'.history[|r.history|].attrs) && !IsClose(r'.history[|r.history|].attrs)
    ensures Quiet(r.history, r'.history)
  {
    hide WellFormed, Live, TimersOf, Columns, LocksStarted, StatusOf, Legal, Admissible;
    var h, e := r.history, r'.history[|r.history|];
    assert r'.history == h + [e];
    LogAppend(h, e);
    LegalIsAdmissible(h, e);
    assert r'.history[..|h|] == h;
  }

  lemma QuietReflexive(h: seq<Event>)
    ensures Quiet(h, h)
  {
  }

  /** Rows keep their token when rewritten in place. */
  lemma RowsKeep(s: State, k: RunKey, m': map<int, ActivityTask>)
    requires TokensUnique(s) && k in s.runs
    requires forall a :: a in m' ==> a in s.runs[k].activities && m'[a].taskId == s.runs[k].activities[a].taskId
    ensures RowsEvolve(s.runs[k].activities, m', s.activitySeq, s.activitySeq)
  {
    forall a, b | a in m' && b in m' && m'[a].taskId == m'[b].taskId
      ensures a == b
    {
      assert HoldsActivity(s, k, a, m'[a].taskId) && HoldsActivity(s, k, b, m'[a].taskId);
    }
  }

  /** A run that gained at most one quiet event, kept or lost rows, and kept or gained a task. */
  ghost predicate Advances(r: Run, r': Run) {
    && Indexed(r')
    && r'.workflowType == r.workflowType && r'.queue == r.queue && r'.status == r.status
    && r.history <= r'.history && |r'.history| <= |r.history| + 1
    && (|r'.history| == |r.history| + 1 ==> !IsRecord(r'.history[|r.history|].attrs) && !IsClose(r'.history[|r.history|].attrs))
    && (forall a :: a in r'.activities ==> a in r.activities && r'.activities[a].taskId == r.activities[a].taskId)
    && (r'.task.Some? <==> r.task.Some? || (|r'.history| == |r.history| + 1 && IsWake(r'.history[|r.history|].attrs)))
  }

  /** A task is pending afterwards exactly if one was, or an event to react to was written. */
  ghost predicate WakesExactly(r: Run, r': Run) {
    r'.task.Some? <==> r.task.Some? || WokenSince(|r.history|, r'.history)
  }

  /** One run moved by quiet growth of its log, without changing status. */
  ghost predicate Drifts(s: State, k: RunKey, s': State) {
    && Moves(s, k, s')
    && Quiet(s.runs[k].history, s'.runs[k].history)
    && s'.runs[k].status == s.runs[k].status
    && s'.now == s.now
    && WakesExactly(s.runs[k], s'.runs[k])
  }

  lemma AdvanceDrifts(s: State, k: RunKey, s': State)
    requires AllIndexed(s) && TokensUnique(s) && k in s.runs && k in s'.runs
    requires s' == Put(s, k, s'.runs[k]).(workflowSeq := s'.workflowSeq)
    requires Advances(s.runs[k], s'.runs[k])
    requires var r, r' := s.runs[k], s'.runs[k];
             || (r.task.None? && r'.task.None? && s'.workflowSeq >= s.workflowSeq)
             || (r.task.Some? && r'.task.Some? && r'.task.value.taskId == r.task.value.taskId && s'.workflowSeq >= s.workflowSeq)
             || (r.task.None? && r'.task.Some? && r'.task.value.taskId == s.workflowSeq && s'.workflowSeq == s.workflowSeq + 1)
    ensures Drifts(s, k, s')
  {
    hide Indexed, Quiet, IsRecord, IsClose;
    var r, r' := s.runs[k], s'.runs[k];
    if |r'.history| == |r.history| + 1 {
      QuietEvent(r, r');
    } else {
      assert r'.history == r.history;
      QuietReflexive(r.history);
    }
    RowsKeep(s, k, r'.activities);
  }

  lemma SignalDrifts(s: State, k: RunKey, name: string, input: Bytes)
    requires AllIndexed(s) && TokensUnique(s) && k in s.runs && s.runs[k].status == StatusRunning
    ensures Drifts(s, k, SignalWorkflow(s, k, name, input).0)
  {
    hide Indexed, Drifts;
    var r1 := Append(s.runs[k], s.now, Signaled(name, input));
    SignalKeeps(s.runs[k], s.now, name, input);
    EnqueueKeeps(r1, s.workflowSeq, s.now);
    AdvanceDrifts(s, k, SignalWorkflow(s, k, name, input).0);
  }

  lemma PollWorkflowDrifts(s: State, k: RunKey, identity: string, lease: int)
    requires AllIndexed(s) && TokensUnique(s) && PollableWorkflow(s, k)
    ensures Drifts(s, k, PollWorkflowTask(s, k, identity, lease))
  {
    hide Indexed, Drifts;
    LeaseTaskKeeps(s.runs[k], s.now, identity, lease);
    AdvanceDrifts(s, k, PollWorkflowTask(s, k, identity, lease));
  }

  lemma PollActivityDrifts(s: State, k: RunKey, a: int, identity: string, lease: int)
    requires AllIndexed(s) && TokensUnique(s) && k in s.runs && Pollable(s.runs[k], a, s.now)
    ensures Drifts(s, k, PollActivityTask(s, k, a, identity, lease))
  {
    hide Indexed, Drifts;
    LeaseActivityKeeps(s.runs[k], a, s.now, identity, lease);
    AdvanceDrifts(s, k, PollActivityTask(s, k, a, identity, lease));
  }

  lemma ResolveDrifts(s: State, k: RunKey, a: int, outcome: Attributes, s': State)
    requires AllIndexed(s) && TokensUnique(s) && k in s.runs && a in s.runs[k].activities
    requires s.runs[k].activities[a].lockedBy.Some? && Resolves(outcome, a)
    requires var c := s.runs[k].activities[a].columns;
             outcome.ActivityFailed? && outcome.retryable ==> !CanRetry(EffectivePolicy(c), c.attempt)
    requires s' == Put(s, k, ResolveActivity(s.runs[k], a, s.now, outcome, s.workflowSeq)).(workflowSeq := s.workflowSeq + 1)
    ensures Drifts(s, k, s')
  {
    hide Indexed, Drifts, CanRetry, EffectivePolicy;
    ResolveKeeps(s.runs[k], a, s.now, outcome, s.workflowSeq);
    AdvanceDrifts(s, k, s');
  }

  lemma CompleteActivityDrifts(s: State, k: RunKey, a: int, identity: string, result: Bytes)
    requires AllIndexed(s) && TokensUnique(s) && k in s.runs && a in s.runs[k].activities
    ensures var s' := CompleteActivityTask(s, k, a, identity, result).0;
            s' == s || Drifts(s, k, s')
  {
    hide Indexed, Drifts, ResolveActivity;
    if OwnsActivity(s.runs[k], a, identity) {
      ResolveDrifts(s, k, a, ActivityCompleted(a, result), CompleteActivityTask(s, k, a, identity, result).0);
    }
  }

  lemma FailActivityDrifts(s: State, k: RunKey, a: int, identity: string, failure: Option<Failure>, retryable: bool, outOfRange: int)
    requires AllIndexed(s) && TokensUnique(s) && k in s.runs && a in s.runs[k].activities
    ensures var s' := FailActivityTask(s, k, a, identity, failure, retryable, outOfRange).0;
            s' == s || Drifts(s, k, s')
  {
    hide Indexed, Drifts, ResolveActivity, CanRetry, Delay, EffectivePolicy;
    var c := s.runs[k].activities[a].columns;
    var s' := FailActivityTask(s, k, a, identity, failure, retryable, outOfRange).0;
    if OwnsActivity(s.runs[k], a, identity) {
      if retryable && CanRetry(EffectivePolicy(c), c.attempt) {
        RetryKeeps(s.runs[k], a, s.now, failure, outOfRange);
        AdvanceDrifts(s, k, s');
      } else {
        ResolveDrifts(s, k, a, ActivityFailed(a, failure, retryable), s');
      }
    }
  }

  lemma HeartbeatDrifts(s: State, k: RunKey, a: int, lease: int)
    requires AllIndexed(s) && TokensUnique(s) && k in s.runs && a in s.runs[k].activities
    ensures var s' := ExtendActivityLease(s, k, a, lease).0;
            s' == s || Drifts(s, k, s')
  {
    hide Indexed, Drifts;
    HeartbeatKeeps(s.runs[k], a, s.now + lease);
    if ExtendActivityLease(s, k, a, lease).1 {
      AdvanceDrifts(s, k, ExtendActivityLease(s, k, a, lease).0);
    }
  }

  lemma FireDrifts(s: State, k: RunKey, t: int)
    requires AllIndexed(s) && TokensUnique(s) && k in s.runs && Due(s.runs[k], t, s.now)
    ensures Drifts(s, k, FireOne(s, k, t))
  {
    hide Indexed, Drifts;
    FireKeeps(s.runs[k], t, s.now, s.workflowSeq);
    AdvanceDrifts(s, k, FireOne(s, k, t));
  }

  ghost predicate RowsGrow(m: map<int, ActivityTask>, seq0: nat, r: Run, r': Run, seq1: nat) {
    && RowsEvolve(m, r'.activities, seq0, seq1)
    && r.history <= r'.history
    && r'.workflowType == r.workflowType && r'.queue == r.queue
    && (r'.status == StatusRunning ==> r.status == StatusRunning)
  }

  lemma CommandRows(r: Run, now: int, token: nat, c: Command, seq0: nat, m: map<int, ActivityTask>)
    requires seq0 <= token
    requires forall a :: a in m ==> m[a].taskId < seq0
    requires RowsEvolve(m, r.activities, seq0, token)
    ensures RowsGrow(m, seq0, r, ApplyCommand(r, now, token, c), token + TokensFor(c))
  {
  }

  /** Applying commands keeps rows and adds fresh ones; the log only grows. */
  lemma {:induction false} ApplyRows(r: Run, now: int, token: nat, cs: seq<Command>, seq0: nat, m: map<int, ActivityTask>)
    requires seq0 <= token
    requires forall a :: a in m ==> m[a].taskId < seq0
    requires RowsEvolve(m, r.activities, seq0, token)
    ensures RowsGrow(m, seq0, r, ApplyCommands(r, now, token, cs), token + TokensUsed(cs))
    decreases |cs|
  {
    hide RowsEvolve, ApplyCommand;
    if cs != [] {
      CommandRows(r, now, token, cs[0], seq0, m);
      if !IsTerminal(cs[0]) {
        ApplyRows(ApplyCommand(r, now, token, cs[0]), now, token + TokensFor(cs[0]), cs[1..], seq0, m);
      }
    }
  }

  lemma CommitMoves(s: State, k: RunKey, identity: string, cs: seq<Command>)
    requires AllIndexed(s) && TokensUnique(s) && TokensKnown(s) && k in s.runs && s.runs[k].task.Some?
    requires cs != [] ==> !Closed(s.runs[k].history)
    ensures var s' := CompleteWorkflowTask(s, k, identity, cs).0;
            s' == s || Moves(s, k, s')
  {
    hide Indexed, ApplyCommands, Closed, TokensUsed;
    var r := s.runs[k];
    CommitKeeps(r, s.now, s.activitySeq, cs);
    RowsKeep(s, k, r.activities);
    forall a | a in r.activities
      ensures r.activities[a].taskId < s.activitySeq
    {
      assert HoldsActivity(s, k, a, r.activities[a].taskId);
    }
    ApplyRows(r, s.now, s.activitySeq, cs, s.activitySeq, r.activities);
  }

  // ---------------------------------------------------------------- induction over behaviours

  lemma StartKeepsInv(reg: Registry, c: System, k: RunKey, workflowType: string, queue: string, input: Bytes, c': System, reply: StartReply)
    requires Inv(reg, c) && c'.sent == c.sent
    requires StartWorkflow(c.store, k, workflowType, queue, input, c'.store, reply)
    ensures Inv(reg, c')
  {
    hide Indexed, NewRun, DecidesWithin, Quiet;
    var s, s' := c.store, c'.store;
    if k !in s.runs && !exists k' :: RunningUnder(s, k', k.workflowId) {
      NewRunIndexed(workflowType, queue, input, s.workflowSeq, s.now);
      NewRunRows(workflowType, queue, input, s.workflowSeq, s.now);
      assert forall k', t :: HoldsWorkflow(s', k', t) ==> HoldsWorkflow(s, k', t) || (k' == k && t == s.workflowSeq);
      assert forall k', a, t :: HoldsActivity(s', k', a, t) ==> HoldsActivity(s, k', a, t);
      assert forall k', w :: RunningUnder(s', k', w) ==> RunningUnder(s, k', w) || (k' == k && w == k.workflowId);
      forall m | m in c'.sent
        ensures MessageOk(reg, s', m)
      {
        assert MessageOk(reg, s, m);
      }
    }
  }

  lemma NewRunRows(workflowType: string, queue: string, input: Bytes, token: nat, now: int)
    ensures var r := NewRun(workflowType, queue, input, token, now);
            r.activities == map[] && r.task.Some? && r.task.value.taskId == token && r.status == StatusRunning
  {
  }

  lemma PollWorkflowKeepsInv(reg: Registry, c: System, k: RunKey, identity: string, lease: int, sent: set<Message>)
    requires Inv(reg, c) && PollableWorkflow(c.store, k)
    requires forall m :: m in sent ==> Honest(reg, c.store, k, identity, m)
    ensures Inv(reg, System(PollWorkflowTask(c.store, k, identity, lease), c.sent + sent))
  {
    hide Indexed, DecidesWithin, Quiet, Moves, TokensKnown;
    var s := c.store;
    var c1 := System(PollWorkflowTask(s, k, identity, lease), c.sent);
    PollWorkflowDrifts(s, k, identity, lease);
    MovesKeepsInv(reg, c, k, c1);
    forall m | m in sent
      ensures MessageOk(reg, c1.store, m)
    {
      FreshMessage(reg, s, k, identity, lease, m);
    }
  }

  lemma FreshMessage(reg: Registry, s: State, k: RunKey, identity: string, lease: int, m: Message)
    requires AllIndexed(s) && PollableWorkflow(s, k) && Honest(reg, s, k, identity, m)
    requires TokensKnown(PollWorkflowTask(s, k, identity, lease)) && TokensUnique(PollWorkflowTask(s, k, identity, lease))
    ensures MessageOk(reg, PollWorkflowTask(s, k, identity, lease), m)
  {
    hide DecidesWithin, Quiet, WellFormed, Live, TimersOf;
    var s' := PollWorkflowTask(s, k, identity, lease);
    assert HoldsWorkflow(s', k, m.token);
    QuietReflexive(m.basis);
    assert Indexed(s.runs[k]);
  }

  lemma RespondWorkflowKeepsInv(reg: Registry, c: System, m: Message, k: RunKey, c': System)
    requires Inv(reg, c) && m in c.sent && HoldsWorkflow(c.store, k, m.token)
    requires c' == c.(store := CompleteWorkflowTask(c.store, k, m.identity, m.decision.commands).0)
    ensures Inv(reg, c')
    ensures c' == c || Moves(c.store, k, c'.store)
  {
    hide Indexed, CompleteWorkflowTask, DecidesWithin, Quiet, Moves, Closed;
    assert MessageOk(reg, c.store, m);
    DecisionOnClosed(reg[m.workflowType], m.queue, m.basis, c.store.runs[k].history, m.decision, m.calls);
    CommitMoves(c.store, k, m.identity, m.decision.commands);
    if c' != c {
      MovesKeepsInv(reg, c, k, c');
    }
  }

  /** Deciding on a closed log yields no commands, and quiet growth does not close a log. */
  lemma DecisionOnClosed(code: Code, queue: string, h0: seq<Event>, h: seq<Event>, d: Decision, n: nat)
    requires Quiet(h0, h) && DecidesWithin(code, queue, h0, d, n)
    ensures d.commands != [] ==> !Closed(h)
  {
    hide Quiet, Closed, ViewOf, ReplayRun;
    QuietGrowth(h0, h);
    ViewProjects(h0);
  }

  lemma {:induction false} FireAllKeepsInv(reg: Registry, c: System, due: seq<(RunKey, int)>, c': System)
    requires Inv(reg, c) && FiresAll(c.store, due, c'.store) && c'.sent == c.sent
    ensures Inv(reg, c')
    decreases |due|
  {
    if due == [] {
      assert c' == c;
    } else {
      hide Indexed, FireOne, Moves;
      var c1 := c.(store := FireOne(c.store, due[0].0, due[0].1));
      FireDrifts(c.store, due[0].0, due[0].1);
      MovesKeepsInv(reg, c, due[0].0, c1);
      FireAllKeepsInv(reg, c1, due[1..], c');
    }
  }

  lemma TickKeepsInv(reg: Registry, c: System, elapsed: nat)
    requires Inv(reg, c)
    ensures Inv(reg, c.(store := c.store.(now := c.store.now + elapsed)))
  {
    hide Indexed, Quiet, DecidesWithin;
    var c' := c.(store := c.store.(now := c.store.now + elapsed));
    assert forall k, t :: HoldsWorkflow(c'.store, k, t) <==> HoldsWorkflow(c.store, k, t);
    assert forall k, a, t :: HoldsActivity(c'.store, k, a, t) <==> HoldsActivity(c.store, k, a, t);
    assert forall k, w :: RunningUnder(c'.store, k, w) <==> RunningUnder(c.store, k, w);
    forall m | m in c'.sent
      ensures MessageOk(reg, c'.store, m)
    {
      assert MessageOk(reg, c.store, m);
    }
  }

  lemma ActivityStepDrifts(reg: Registry, c: System, a: Action, c': System)
    requires Inv(reg, c) && Step(reg, c, a, c')
    requires a.RespondCompleted? || a.RespondFailed? || a.Heartbeat?
    ensures c' == c || exists k :: Drifts(c.store, k, c'.store) && c'.sent == c.sent
  {
    hide Indexed, Drifts, CompleteActivityTask, FailActivityTask, ExtendActivityLease;
    var s := c.store;
    if c' != c {
      match a
      case RespondCompleted(token, identity, result) =>
        var k, t :| HoldsActivity(s, k, t, token) && c' == c.(store := CompleteActivityTask(s, k, t, identity, result).0);
        CompleteActivityDrifts(s, k, t, identity, result);
      case RespondFailed(token, identity, failure, retryable, outOfRange) =>
        var k, t :| HoldsActivity(s, k, t, token) && c' == c.(store := FailActivityTask(s, k, t, identity, failure, retryable, outOfRange).0);
        FailActivityDrifts(s, k, t, identity, failure, retryable, outOfRange);
      case Heartbeat(token, lease) =>
        var k, t :| HoldsActivity(s, k, t, token) && c' == c.(store := ExtendActivityLease(s, k, t, lease).0);
        HeartbeatDrifts(s, k, t, lease);
    }
  }

  /** Every action of clients, workers, timer service and clock keeps the invariant. */
  lemma StepKeepsInv(reg: Registry, c: System, a: Action, c': System)
    requires Inv(reg, c) && Step(reg, c, a, c')
    ensures Inv(reg, c')
  {
    hide Indexed, Moves, CompleteWorkflowTask, StartWorkflow, SignalWorkflow, PollWorkflowTask, PollActivityTask,
         TokensKnown, TokensUnique, MessagesOk, OneRunning, FiresAll, Honest, Pollable, PollableWorkflow;
    var s := c.store;
    match a
    case Start(k, workflowType, queue, input) =>
      var reply :| StartWorkflow(s, k, workflowType, queue, input, c'.store, reply);
      StartKeepsInv(reg, c, k, workflowType, queue, input, c', reply);
    case Signal(k, name, input) =>
      SignalOutcome(s, k, name, input);
      if c' != c {
        MovesKeepsInv(reg, c, k, c');
      }
    case PollWorkflow(k, identity, lease, sent) => PollWorkflowKeepsInv(reg, c, k, identity, lease, sent);
    case RespondWorkflow(m) =>
      if c' != c {
        var k :| HoldsWorkflow(s, k, m.token) && c' == c.(store := CompleteWorkflowTask(s, k, m.identity, m.decision.commands).0);
        RespondWorkflowKeepsInv(reg, c, m, k, c');
      }
    case PollActivity(k, t, identity, lease) =>
      PollActivityDrifts(s, k, t, identity, lease);
      MovesKeepsInv(reg, c, k, c');
    case FireTimers(due) => FireAllKeepsInv(reg, c, due, c');
    case Tick(elapsed) => TickKeepsInv(reg, c, elapsed);
    case _ =>
      ActivityStepDrifts(reg, c, a, c');
      if c' != c {
        var k :| Drifts(c.store, k, c'.store) && c'.sent == c.sent;
        MovesKeepsInv(reg, c, k, c');
      }
  }

  lemma SignalOutcome(s: State, k: RunKey, name: string, input: Bytes)
    requires AllIndexed(s) && TokensUnique(s)
    ensures var s' := SignalWorkflow(s, k, name, input).0;
            s' == s || Drifts(s, k, s')
  {
    hide Indexed, Drifts;
    if k in s.runs && s.runs[k].status == StatusRunning {
      SignalDrifts(s, k, name, input);
    }
  }

  /** In every reachable state of every run of the system. */
  lemma {:induction false} ReachableInv(reg: Registry, states: seq<System>, actions: seq<Action>, i: nat)
    requires Behavior(reg, states, actions) && i < |states|
    ensures Inv(reg, states[i])
  {
    hide Inv, Step;
    if i == 0 {
      InitInv(reg);
    } else {
      ReachableInv(reg, states, actions, i - 1);
      assert Taken(reg, states, actions, i - 1);
      StepKeepsInv(reg, states[i - 1], actions[i - 1], states[i]);
    }
  }

  lemma InitInv(reg: Registry)
    ensures Inv(reg, INIT)
  {
  }

  // ---------------------------------------------------------------- what a step does to each run

  /** Message m is accepted and its decision committed to run k. */
  ghost predicate CommitsTo(c: System, m: Message, k: RunKey, c': System) {
    && m in c.sent && HoldsWorkflow(c.store, k, m.token) && OwnsWorkflow(c.store.runs[k], m.identity)
    && c' == c.(store := CompleteWorkflowTask(c.store, k, m.identity, m.decision.commands).0)
  }

  ghost predicate SameRun(r: Run, r': Run) {
    r'.workflowType == r.workflowType && r'.queue == r.queue && r'.input == r.input
  }

  /** A pending task keeps its token; a new one has a token the sequence had not issued. */
  ghost predicate TokenKept(r: Run, r': Run, issued: nat) {
    r'.task.Some? ==>
      (if r.task.Some? then r'.task.value.taskId == r.task.value.taskId else r'.task.value.taskId >= issued)
  }

  ghost predicate GrowsQuietly(r: Run, r': Run, issued: nat) {
    && SameRun(r, r') && Quiet(r.history, r'.history) && r'.status == r.status
    && WakesExactly(r, r') && TokenKept(r, r', issued)
  }

  lemma DriftGrows(s: State, k: RunKey, s': State, k': RunKey)
    requires Drifts(s, k, s') && AllIndexed(s) && k' in s.runs
    ensures k' in s'.runs && GrowsQuietly(s.runs[k'], s'.runs[k'], s.workflowSeq) && s.workflowSeq <= s'.workflowSeq
  {
    hide Quiet, WellFormed, Live, TimersOf, StatusOf, Columns, LocksStarted, RowsEvolve;
    QuietReflexive(s.runs[k'].history);
    if k' == k {
      QuietPrefix(s.runs[k].history, s'.runs[k].history);
      assert Indexed(s.runs[k]) && Indexed(s'.runs[k]);
    }
  }

  lemma QuietPrefix(h: seq<Event>, h': seq<Event>)
    requires Quiet(h, h')
    ensures h <= h'
  {
  }

  lemma WokenTransitive(a: seq<Event>, b: seq<Event>, c: seq<Event>)
    requires Quiet(a, b) && Quiet(b, c)
    ensures WokenSince(|a|, c) <==> WokenSince(|a|, b) || WokenSince(|b|, c)
  {
    hide Admissible;
    if WokenSince(|a|, b) {
      var j :| |a| <= j < |b| && IsWake(b[j].attrs);
      assert IsWake(c[j].attrs);
    }
    if WokenSince(|b|, c) {
      var j :| |b| <= j < |c| && IsWake(c[j].attrs);
      assert |a| <= j;
    }
  }

  lemma GrowsReflexive(r: Run, issued: nat)
    ensures GrowsQuietly(r, r, issued)
  {
    QuietReflexive(r.history);
  }

  lemma GrowsTransitive(r0: Run, r1: Run, r2: Run, issued: nat, issued': nat)
    requires GrowsQuietly(r0, r1, issued) && GrowsQuietly(r1, r2, issued') && issued <= issued'
    ensures GrowsQuietly(r0, r2, issued)
  {
    hide Quiet, WokenSince;
    QuietTransitive(r0.history, r1.history, r2.history);
    WokenTransitive(r0.history, r1.history, r2.history);
  }

  lemma FireOneGrows(reg: Registry, c: System, d: (RunKey, int), k: RunKey)
    requires Inv(reg, c) && d.0 in c.store.runs && Due(c.store.runs[d.0], d.1, c.store.now) && k in c.store.runs
    ensures var c1 := c.(store := FireOne(c.store, d.0, d.1));
            Inv(reg, c1) && k in c1.store.runs && GrowsQuietly(c.store.runs[k], c1.store.runs[k], c.store.workflowSeq)
            && c.store.workflowSeq <= c1.store.workflowSeq
  {
    hide Indexed, FireOne, Moves, GrowsQuietly, TokensKnown, OneRunning, MessagesOk, Quiet;
    var c1 := c.(store := FireOne(c.store, d.0, d.1));
    FireDrifts(c.store, d.0, d.1);
    MovesKeepsInv(reg, c, d.0, c1);
    DriftGrows(c.store, d.0, c1.store, k);
  }

  lemma {:induction false} FireAllGrows(reg: Registry, c: System, due: seq<(RunKey, int)>, c': System, k: RunKey)
    requires Inv(reg, c) && FiresAll(c.store, due, c'.store) && c'.sent == c.sent && k in c.store.runs
    ensures k in c'.store.runs && GrowsQuietly(c.store.runs[k], c'.store.runs[k], c.store.workflowSeq)
    decreases |due|
  {
    hide Inv, GrowsQuietly, FireOne;
    if due == [] {
      GrowsReflexive(c.store.runs[k], c.store.workflowSeq);
    } else {
      var c1 := c.(store := FireOne(c.store, due[0].0, due[0].1));
      FireOneGrows(reg, c, due[0], k);
      FireAllGrows(reg, c1, due[1..], c', k);
      GrowsTransitive(c.store.runs[k], c1.store.runs[k], c'.store.runs[k], c.store.workflowSeq, c1.store.workflowSeq);
    }
  }

  /** Every existing run persists; its log grows quietly unless a decision is committed to it. */
  lemma StepOnRun(reg: Registry, c: System, a: Action, c': System, k: RunKey)
    requires Inv(reg, c) && Step(reg, c, a, c') && k in c.store.runs
    ensures k in c'.store.runs
    ensures GrowsQuietly(c.store.runs[k], c'.store.runs[k], c.store.workflowSeq)
            || (a.RespondWorkflow? && CommitsTo(c, a.message, k, c'))
  {
    hide Indexed, Drifts, Quiet, CompleteWorkflowTask, SignalWorkflow, PollWorkflowTask, PollActivityTask,
         TokensKnown, TokensUnique, MessagesOk, OneRunning, FiresAll, Honest, Pollable, PollableWorkflow;
    var s := c.store;
    QuietReflexive(s.runs[k].history);
    match a
    case Start(_, _, _, _) =>
    case Signal(k', name, input) =>
      SignalOutcome(s, k', name, input);
      if c' != c {
        DriftGrows(s, k', c'.store, k);
      }
    case PollWorkflow(k', identity, lease, _) =>
      PollWorkflowDrifts(s, k', identity, lease);
      DriftGrows(s, k', c'.store, k);
    case RespondWorkflow(m) =>
      if c' != c {
        var k' :| HoldsWorkflow(s, k', m.token) && c' == c.(store := CompleteWorkflowTask(s, k', m.identity, m.decision.commands).0);
        CommitOutcome(s, k', m.identity, m.decision.commands, c'.store, k);
      }
    case PollActivity(k', t, identity, lease) =>
      PollActivityDrifts(s, k', t, identity, lease);
      DriftGrows(s, k', c'.store, k);
    case FireTimers(due) => FireAllGrows(reg, c, due, c', k);
    case Tick(_) =>
    case _ =>
      ActivityStepDrifts(reg, c, a, c');
      if c' != c {
        var k' :| Drifts(s, k', c'.store) && c'.sent == c.sent;
        DriftGrows(s, k', c'.store, k);
      }
  }

  lemma CommitOutcome(s: State, k: RunKey, identity: string, cs: seq<Command>, s': State, k': RunKey)
    requires k in s.runs && s.runs[k].task.Some? && k' in s.runs
    requires s' == CompleteWorkflowTask(s, k, identity, cs).0
    ensures s' != s ==> OwnsWorkflow(s.runs[k], identity)
    ensures k' in s'.runs && (k' != k ==> s'.runs[k'] == s.runs[k'])
  {
  }

  /** Runs appear only by being started, with a one-event log. */
  lemma NewRuns(reg: Registry, c: System, a: Action, c': System, k: RunKey)
    requires Inv(reg, c) && Step(reg, c, a, c') && k in c'.store.runs && k !in c.store.runs
    ensures a.Start? && a.key == k
    ensures c'.store.runs[k] == NewRun(a.workflowType, a.queue, a.input, c.store.workflowSeq, c.store.now)
  {
    hide Indexed, Quiet, NewRun, Commit, LeaseTask, LeaseActivity, ResolveActivity, RetryActivity, Append, Enqueue,
         TokensKnown, TokensUnique, MessagesOk, OneRunning, FiresAll, Honest, EffectivePolicy, Delay, CanRetry;
    if a.FireTimers? {
      FireAllDomain(c.store, a.due, c'.store);
    }
  }

  lemma {:induction false} FireAllDomain(s: State, due: seq<(RunKey, int)>, s': State)
    requires FiresAll(s, due, s')
    ensures s'.runs.Keys == s.runs.Keys && s'.now == s.now
    decreases |due|
  {
    if due != [] {
      hide FireTimer, Due;
      FireAllDomain(FireOne(s, due[0].0, due[0].1), due[1..], s');
    }
  }

  /** Messages are only ever added, by the worker that polled, about the history it was handed. */
  lemma SentGrows(reg: Registry, c: System, a: Action, c': System)
    requires Step(reg, c, a, c')
    ensures c.sent <= c'.sent
    ensures forall m :: m in c'.sent && m !in c.sent ==>
              a.PollWorkflow? && PollableWorkflow(c.store, a.key) && Honest(reg, c.store, a.key, a.identity, m)
  {
    hide Honest, CompleteWorkflowTask, SignalWorkflow, PollWorkflowTask, PollActivityTask, CompleteActivityTask,
         FailActivityTask, ExtendActivityLease, FiresAll, StartWorkflow;
  }
}
