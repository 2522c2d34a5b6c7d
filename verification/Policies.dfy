/**
 Which retry policy governs an activity. An all-zero policy encodes to no bytes, and an empty column means
 the default, so such a policy is recorded in the log but not the one consulted when an attempt fails.
 */
module Policies {
  import opened Basics
  import opened History
  import opened Program
  import opened Replay
  import opened Backoff
  import opened Log
  import opened Store
  import opened RunInvariant
  import opened System
  import opened Totals
  import opened Tables

  const NO_POLICY := RetryPolicy(0, 0.0, 0, 0)

  /** The policy consulted when an attempt of this call fails. */
  function Consulted(call: ActivityCall): RetryPolicy {
    PolicyOrDefault(Marshal(call.policy))
  }

  /** After so many attempts, the consulted policy retries as the recorded one would, after the same wait. */
  ghost predicate TreatedAsRecorded(call: ActivityCall, attempt: int) {
    && (CanRetry(Consulted(call), attempt) <==> CanRetry(call.policy, attempt))
    && (CanRetry(call.policy, attempt) ==>
          forall outOfRange :: Delay(Consulted(call), attempt, outOfRange) == Delay(call.policy, attempt, outOfRange))
  }

  lemma SmallPowers()
    ensures Pow(2.0, 0) == 1.0 && Pow(2.0, 1) == 2.0 && Pow(2.0, 2) == 4.0 && Pow(2.0, 3) == 8.0
  {
    assert Pow(2.0, 1) == Pow(2.0, 0) * 2.0;
    assert Pow(2.0, 2) == Pow(2.0, 1) * 2.0;
    assert Pow(2.0, 3) == Pow(2.0, 2) * 2.0;
  }

  /** Up to the fourth attempt the all-zero policy and the default wait alike: 1, 2, 4 and 8 seconds. */
  lemma SameWaits(attempt: int, outOfRange: int)
    requires attempt < 5
    ensures Delay(NO_POLICY, attempt, outOfRange) == Delay(DEFAULT_POLICY, attempt, outOfRange)
  {
    hide Pow;
    SmallPowers();
    var power := if attempt < 1 then 0 else attempt - 1;
    assert Ideal(NO_POLICY, attempt) == SECOND as real * Pow(2.0, power) == Ideal(DEFAULT_POLICY, attempt);
    assert Ideal(DEFAULT_POLICY, attempt) <= 8.0 * SECOND as real;
    assert Ideal(DEFAULT_POLICY, attempt).Floor <= 8 * SECOND;
  }

  /**
   The exact condition. Failures are handled under the recorded policy if and only if that policy is
   not all-zero or fewer than five attempts were made; an all-zero policy would never give up.
   */
  lemma PolicyHonoredExactly(call: ActivityCall, attempt: int)
    ensures Consulted(call) == call.policy <==> call.policy != NO_POLICY
    ensures TreatedAsRecorded(call, attempt) <==> call.policy != NO_POLICY || attempt < 5
  {
    hide Delay;
    if call.policy == NO_POLICY && attempt < 5 {
      forall outOfRange
        ensures Delay(Consulted(call), attempt, outOfRange) == Delay(call.policy, attempt, outOfRange)
      {
        SameWaits(attempt, outOfRange);
      }
    }
  }

  /** What the workflow author wrote: durations that are not positive never reach the wire. */
  predicate WritesNoPolicy(p: RetryPolicy) {
    p.initialInterval <= 0 && p.backoffCoefficient == 0.0 && p.maxInterval <= 0 && p.maxAttempts == 0
  }

  /** The same condition on the options given to ExecuteActivity. */
  lemma OptionsHonoredExactly(index: nat, queue: string, t: string, b: Bytes, o: ActivityOptions)
    requires o.policy.Some?
    ensures var call := CallRecord(index, queue, t, b, o).call;
            && call.policy == WirePolicy(o.policy).value
            && (Consulted(call) == call.policy <==> !WritesNoPolicy(o.policy.value))
  {
    hide ActivityIdFor;
    PolicyHonoredExactly(CallRecord(index, queue, t, b, o).call, 1);
  }

  /**
   In every reachable state, the policy consulted for a live row is the one its scheduled event records
   if and only if that one is not all-zero, and whether the next failure is treated as recorded
   depends on that and on the attempt alone.
   */
  lemma ConsultedExactly(reg: Registry, states: seq<System>, actions: seq<Action>, i: nat, k: RunKey, s: int)
    requires Behavior(reg, states, actions) && i < |states|
    requires k in states[i].store.runs && s in states[i].store.runs[k].activities
    ensures var r := states[i].store.runs[k];
            SchedulesAt(r.history, s)
            && var call, c := r.history[s - 1].attrs.call, r.activities[s].columns;
               && EffectivePolicy(c) == Consulted(call)
               && (EffectivePolicy(c) == call.policy <==> call.policy != NO_POLICY)
               && (TreatedAsRecorded(call, c.attempt) <==> call.policy != NO_POLICY || c.attempt < 5)
  {
    hide Behavior, WellFormed, Live, TimersOf, StatusOf, TreatedAsRecorded;
    ReachableIndexed(reg, states, actions, i, k);
    var r := states[i].store.runs[k];
    assert Columns(r.activities)[s] == r.activities[s].columns;
    LiveOrigin(r.history, s);
    PolicyHonoredExactly(r.history[s - 1].attrs.call, r.activities[s].columns.attempt);
  }

  /** The fifth failure of an activity recorded with an unlimited policy is final. */
  lemma UnlimitedStopsAtFive(s: State, k: RunKey, a: int, identity: string, failure: Option<Failure>, outOfRange: int)
    requires k in s.runs && a in s.runs[k].activities && OwnsActivity(s.runs[k], a, identity)
    requires s.runs[k].activities[a].columns.blob == Marshal(NO_POLICY)
    ensures CanRetry(NO_POLICY, s.runs[k].activities[a].columns.attempt)
    ensures var s' := FailActivityTask(s, k, a, identity, failure, true, outOfRange).0;
            a in s'.runs[k].activities <==> s.runs[k].activities[a].columns.attempt < 5
  {
    hide Delay, Enqueue;
    EnqueueFrame();
  }

  /**
   Every recorded retry waits exactly the documented minimum of the power and the maximum, under the
   consulted policy, as long as the power fits 64 bits.
   */
  lemma RecordedWait(reg: Registry, states: seq<System>, actions: seq<Action>, i: nat, k: RunKey, j: nat)
    requires Behavior(reg, states, actions) && i < |states| && k in states[i].store.runs
    requires var h := states[i].store.runs[k].history;
             j < |h| && h[j].attrs.ActivityRetryScheduled?
    ensures var h := states[i].store.runs[k].history;
            var e := h[j];
            SchedulesAt(h, e.attrs.scheduledId)
            && var p := Consulted(h[e.attrs.scheduledId - 1].attrs.call);
               Ideal(p, e.attrs.attempt - 1) < DURATION_RANGE ==>
                 e.attrs.nextTime == e.time + Clamp(Ideal(p, e.attrs.attempt - 1).Floor, p.maxInterval)
  {
    hide Behavior, WellFormed, Live, TimersOf, StatusOf, Ideal, Closed;
    ReachableIndexed(reg, states, actions, i, k);
    var h := states[i].store.runs[k].history;
    PrefixWellFormed(h, j);
    LiveOrigin(h[..j], h[j].attrs.scheduledId);
  }
}
