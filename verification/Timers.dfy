/** The timer scan: which due timers one call fires, and how repeated calls drain them all. */
module Timers {
  import opened Basics
  import opened History
  import opened Program
  import opened Replay
  import opened Backoff
  import opened Log
  import opened Store
  import opened System

  type TimerRef = (RunKey, int)

  function Limit(batch: int): nat {
    if batch <= 0 then 100 else batch
  }

  ghost function DueTimers(s: State): set<TimerRef> {
    set k, t | k in s.runs && t in s.runs[k].timers && Due(s.runs[k], t, s.now) :: (k, t)
  }

  function DeadlineOf(s: State, d: TimerRef): int {
    if d.0 in s.runs && d.1 in s.runs[d.0].timers then s.runs[d.0].timers[d.1].fireAt else 0
  }

  ghost predicate AllDue(s: State, due: seq<TimerRef>) {
    forall i :: 0 <= i < |due| ==> due[i] in DueTimers(s)
  }

  ghost predicate EarliestFirst(s: State, due: seq<TimerRef>) {
    forall i, j :: 0 <= i < j < |due| ==> DeadlineOf(s, due[i]) <= DeadlineOf(s, due[j])
  }

  /** No due timer left behind has an earlier deadline than one taken. */
  ghost predicate NoneEarlier(s: State, due: seq<TimerRef>) {
    forall i, d :: 0 <= i < |due| && d in DueTimers(s) && d !in due ==> DeadlineOf(s, due[i]) <= DeadlineOf(s, d)
  }

  /** What the scan's query returns: the earliest due timers, as many as the limit allows. */
  ghost predicate Selected(s: State, limit: nat, due: seq<TimerRef>) {
    && Distinct(due) && AllDue(s, due)
    && |due| == (if |DueTimers(s)| < limit then |DueTimers(s)| else limit)
    && EarliestFirst(s, due) && NoneEarlier(s, due)
  }

  // ---------------------------------------------------------------- firing a selection

  lemma FireOneDue(s: State, d: TimerRef)
    requires d in DueTimers(s)
    ensures d.0 in s.runs && Due(s.runs[d.0], d.1, s.now)
    ensures DueTimers(FireOne(s, d.0, d.1)) == DueTimers(s) - {d}
    ensures forall e :: DeadlineOf(FireOne(s, d.0, d.1), e) == DeadlineOf(s, e)
  {
    var s' := FireOne(s, d.0, d.1);
    assert s'.runs[d.0].timers == s.runs[d.0].timers[d.1 := s.runs[d.0].timers[d.1].(fired := true)];
    forall e
      ensures e in DueTimers(s') <==> e in DueTimers(s) && e != d
    {
      if e.0 == d.0 {
        assert e.1 != d.1 && e.1 in s.runs[d.0].timers ==> s'.runs[e.0].timers[e.1] == s.runs[e.0].timers[e.1];
      }
    }
  }

  /** Any distinct due timers can be fired in one transaction: firing one leaves the others due. */
  lemma {:induction false} DistinctDueFire(s: State, due: seq<TimerRef>) returns (s': State)
    requires Distinct(due) && AllDue(s, due)
    ensures FiresAll(s, due, s')
    decreases |due|
  {
    if due == [] {
      s' := s;
    } else {
      hide FireOne, Due, DueTimers;
      FireOneDue(s, due[0]);
      s' := DistinctDueFire(FireOne(s, due[0].0, due[0].1), due[1..]);
    }
  }

  function Members(due: seq<TimerRef>): set<TimerRef> {
    set d | d in due
  }

  /** Only distinct due timers can be fired, and exactly those stop being due. */
  lemma {:induction false} FiringLeaves(s: State, due: seq<TimerRef>, s': State)
    requires FiresAll(s, due, s')
    ensures Distinct(due) && AllDue(s, due)
    ensures DueTimers(s') == DueTimers(s) - Members(due)
    ensures forall e :: DeadlineOf(s', e) == DeadlineOf(s, e)
    decreases |due|
  {
    if due != [] {
      hide FireOne, DeadlineOf;
      assert due[0] in DueTimers(s);
      hide DueTimers, Due;
      var s1 := FireOne(s, due[0].0, due[0].1);
      FireOneDue(s, due[0]);
      FiringLeaves(s1, due[1..], s');
      assert Members(due) == {due[0]} + Members(due[1..]);
      assert forall i :: 0 < i < |due| ==> due[i] == due[1..][i - 1] && due[i] in DueTimers(s1);
    } else {
      assert Members(due) == {};
    }
  }

  lemma {:induction false} MembersCount(due: seq<TimerRef>)
    requires Distinct(due)
    ensures |Members(due)| == |due|
  {
    if due == [] {
      assert Members(due) == {};
    } else {
      MembersCount(due[1..]);
      assert due[0] !in Members(due[1..]);
      assert Members(due) == {due[0]} + Members(due[1..]);
    }
  }

  // ---------------------------------------------------------------- repeated calls

  /** One call of the timer service. */
  ghost predicate Scan(s: State, batch: int, s': State, fired: int) {
    exists due :: Selected(s, Limit(batch), due) && FiresAll(s, due, s') && fired == |due|
  }

  /** A call fires exactly min(batch, due) timers; the rest stay due and none of them is earlier. */
  lemma ScanFires(s: State, batch: int, s': State, fired: int)
    requires Scan(s, batch, s', fired)
    ensures var limit := if batch <= 0 then 100 else batch;
            fired == if |DueTimers(s)| < limit then |DueTimers(s)| else limit
    ensures |DueTimers(s')| == |DueTimers(s)| - fired && DueTimers(s') <= DueTimers(s)
    ensures forall d, e :: d in DueTimers(s) && d !in DueTimers(s') && e in DueTimers(s') ==> DeadlineOf(s, d) <= DeadlineOf(s, e)
  {
    hide DueTimers, FiresAll, DeadlineOf;
    var due :| Selected(s, Limit(batch), due) && FiresAll(s, due, s') && fired == |due|;
    FiringLeaves(s, due, s');
    MembersCount(due);
    assert Members(due) <= DueTimers(s);
  }

  /** Successive calls with no time passing in between. */
  ghost predicate Scans(states: seq<State>, batch: int) {
    && states != []
    && forall i :: 0 < i < |states| ==> Scanned(states[i - 1], batch, states[i])
  }

  ghost predicate Scanned(s: State, batch: int, s': State) {
    exists fired :: Scan(s, batch, s', fired)
  }

  /** What is left of so many due timers after some full batches. */
  function Left(due: nat, calls: nat, limit: nat): nat {
    if calls * limit < due then due - calls * limit else 0
  }

  lemma OneMoreCall(due: nat, calls: nat, limit: nat)
    ensures var before := Left(due, calls, limit);
            Left(due, calls + 1, limit) == before - (if before < limit then before else limit)
  {
    assert (calls + 1) * limit == calls * limit + limit;
  }

  /** Repeated calls drain the due timers, each by a full batch until none is left. */
  lemma {:induction false} ScansDrain(states: seq<State>, batch: int, i: nat)
    requires Scans(states, batch) && i < |states|
    ensures |DueTimers(states[i])| == Left(|DueTimers(states[0])|, i, Limit(batch))
  {
    hide Scan, DueTimers, Left;
    if i > 0 {
      ScansDrain(states, batch, i - 1);
      assert Scanned(states[i - 1], batch, states[i]);
      var fired :| Scan(states[i - 1], batch, states[i], fired);
      ScanFires(states[i - 1], batch, states[i], fired);
      OneMoreCall(|DueTimers(states[0])|, i - 1, Limit(batch));
    } else {
      NothingFiredYet(|DueTimers(states[0])|, Limit(batch));
    }
  }

  lemma NothingFiredYet(due: nat, limit: nat)
    ensures Left(due, 0, limit) == due
  {
  }

  /** A scan is a step of the system. */
  lemma ScanIsStep(reg: Registry, c: System, batch: int, c': System, fired: int) returns (due: seq<TimerRef>)
    requires Scan(c.store, batch, c'.store, fired) && c'.sent == c.sent
    ensures Step(reg, c, FireTimers(due), c') && fired == |due|
  {
    due :| Selected(c.store, Limit(batch), due) && FiresAll(c.store, due, c'.store) && fired == |due|;
  }
}
