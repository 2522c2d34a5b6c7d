/**
 Flat SQL tables, keyed by task id, event id and timer, against the per-run records of `Store`: what it
 means for them to hold the same rows, and how each insert, update and delete keeps that so.
 */
module Rows {
  import opened Basics
  import opened History
  import opened Program
  import opened Backoff
  import opened Replay
  import opened Log
  import opened Store
  import opened System
  import opened Timers

  datatype ExecutionRow = ExecutionRow(workflowType: string, queue: string, input: Bytes, status: RunStatus, nextEventId: int)

  datatype WorkflowRow = WorkflowRow(
    key: RunKey, queue: string, visibleAt: int, lockedUntil: Option<int>, lockedBy: Option<string>)

  datatype ActivityRow = ActivityRow(
    key: RunKey, scheduledId: int, columns: ActivityColumns, lockedUntil: Option<int>, lockedBy: Option<string>)

  type EventRef = (RunKey, int)

  // ---------------------------------------------------------------- tables against the model

  function RowOf(r: Run): ExecutionRow {
    ExecutionRow(r.workflowType, r.queue, r.input, r.status, r.nextEventId)
  }

  ghost predicate ExecutionsMatch(rows: map<RunKey, ExecutionRow>, s: State) {
    rows.Keys == s.runs.Keys && forall k :: k in rows ==> rows[k] == RowOf(s.runs[k])
  }

  /** Event rows of a run are its history, numbered from one without gaps. */
  ghost predicate EventsMatch(rows: map<EventRef, Event>, s: State) {
    && (forall k :: k in s.runs ==> s.runs[k].nextEventId == |s.runs[k].history| + 1)
    && (forall k, id :: k in s.runs && 1 <= id <= |s.runs[k].history| ==> (k, id) in rows && rows[(k, id)] == s.runs[k].history[id - 1])
    && (forall e :: e in rows ==> e.0 in s.runs && 1 <= e.1 <= |s.runs[e.0].history|)
  }

  function TaskOf(token: nat, row: WorkflowRow): WorkflowTask {
    WorkflowTask(token, row.queue, row.visibleAt, row.lockedUntil, row.lockedBy)
  }

  ghost predicate WorkflowTasksMatch(rows: map<nat, WorkflowRow>, s: State) {
    && (forall t :: t in rows ==> t < s.workflowSeq && rows[t].key in s.runs && s.runs[rows[t].key].task == Some(TaskOf(t, rows[t])))
    && (forall k :: k in s.runs && s.runs[k].task.Some? ==>
          s.runs[k].task.value.taskId in rows && rows[s.runs[k].task.value.taskId].key == k)
  }

  function ActivityOf(token: nat, row: ActivityRow): ActivityTask {
    ActivityTask(token, row.columns, row.lockedUntil, row.lockedBy)
  }

  ghost predicate ActivityTasksMatch(rows: map<nat, ActivityRow>, s: State) {
    && (forall t :: t in rows ==>
          && t < s.activitySeq && rows[t].key in s.runs && rows[t].scheduledId in s.runs[rows[t].key].activities
          && s.runs[rows[t].key].activities[rows[t].scheduledId] == ActivityOf(t, rows[t]))
    && (forall k, a :: k in s.runs && a in s.runs[k].activities ==>
          && a < s.runs[k].nextEventId && s.runs[k].activities[a].taskId in rows
          && rows[s.runs[k].activities[a].taskId].key == k && rows[s.runs[k].activities[a].taskId].scheduledId == a)
  }

  ghost predicate TimersMatch(rows: map<TimerRef, TimerRow>, s: State) {
    && (forall d :: d in rows ==> d.0 in s.runs && d.1 in s.runs[d.0].timers && rows[d] == s.runs[d.0].timers[d.1])
    && (forall k, t :: k in s.runs && t in s.runs[k].timers ==> t < s.runs[k].nextEventId && (k, t) in rows)
  }

  lemma PutTwice(s: State, k: RunKey, a: Run, b: Run)
    ensures Put(Put(s, k, a), k, b) == Put(s, k, b)
  {
  }

  function WithActivity(r: Run, a: int, t: ActivityTask): Run {
    r.(activities := r.activities[a := t])
  }

  function WithoutActivity(r: Run, a: int): Run {
    r.(activities := r.activities - {a})
  }

  /** Events numbered from the allocator's next id. */
  function Stamped(first: int, now: int, attrs: seq<Attributes>): seq<Event> {
    seq(|attrs|, i requires 0 <= i < |attrs| => Event(first + i, now, attrs[i]))
  }

  function AppendAll(r: Run, now: int, attrs: seq<Attributes>): Run {
    r.(history := r.history + Stamped(r.nextEventId, now, attrs), nextEventId := r.nextEventId + |attrs|)
  }

  lemma AppendOne(r: Run, now: int, a: Attributes)
    ensures AppendAll(r, now, [a]) == Append(r, now, a)
  {
    assert Stamped(r.nextEventId, now, [a]) == [Event(r.nextEventId, now, a)];
  }

  // ---------------------------------------------------------------- primitive updates keep the match

  lemma EventRowsMatch(rows: map<EventRef, Event>, rows': map<EventRef, Event>, s: State, k: RunKey, r': Run)
    requires EventsMatch(rows, s) && k in s.runs
    requires s.runs[k].history <= r'.history && r'.nextEventId == |r'.history| + 1
    requires forall e :: e in rows' <==> e in rows || (e.0 == k && |s.runs[k].history| < e.1 <= |r'.history|)
    requires forall e :: e in rows ==> rows'[e] == rows[e]
    requires forall id :: |s.runs[k].history| < id <= |r'.history| ==> rows'[(k, id)] == r'.history[id - 1]
    ensures EventsMatch(rows', Put(s, k, r'))
  {
    var s' := Put(s, k, r');
    forall k', id | k' in s'.runs && 1 <= id <= |s'.runs[k'].history|
      ensures (k', id) in rows' && rows'[(k', id)] == s'.runs[k'].history[id - 1]
    {
      if k' != k || id <= |s.runs[k].history| {
        assert (k', id) in rows;
      } else {
        var e := (k', id);
        assert e in rows';
      }
    }
  }

  /** The new rows are exactly the stamped events. */
  ghost predicate StampedRows(rows: map<EventRef, Event>, rows': map<EventRef, Event>, k: RunKey, first: int, now: int, attrs: seq<Attributes>) {
    && (forall e :: e in rows' <==> e in rows || (e.0 == k && first <= e.1 < first + |attrs|))
    && (forall e :: e in rows && !(e.0 == k && first <= e.1 < first + |attrs|) ==> rows'[e] == rows[e])
    && (forall id :: first <= id < first + |attrs| ==> rows'[(k, id)] == Event(id, now, attrs[id - first]))
  }

  lemma StampedRowsMatch(rows: map<EventRef, Event>, rows': map<EventRef, Event>, s: State, k: RunKey, now: int, attrs: seq<Attributes>)
    requires EventsMatch(rows, s) && k in s.runs && StampedRows(rows, rows', k, s.runs[k].nextEventId, now, attrs)
    ensures EventsMatch(rows', Put(s, k, AppendAll(s.runs[k], now, attrs)))
  {
    EventRowsMatch(rows, rows', s, k, AppendAll(s.runs[k], now, attrs));
  }

  lemma AppendNothing(s: State, k: RunKey)
    requires k in s.runs
    ensures Put(s, k, AppendAll(s.runs[k], s.now, [])) == s
  {
    assert AppendAll(s.runs[k], s.now, []) == s.runs[k];
  }

  /** One run replaced; sequences only advance. */
  ghost predicate Replaces(s: State, k: RunKey, r': Run, s': State) {
    && k in s.runs && s'.runs == s.runs[k := r']
    && s.workflowSeq <= s'.workflowSeq && s.activitySeq <= s'.activitySeq
  }

  lemma SameEventsMatch(rows: map<EventRef, Event>, s: State, k: RunKey, r': Run, s': State)
    requires EventsMatch(rows, s) && Replaces(s, k, r', s')
    requires r'.history == s.runs[k].history && r'.nextEventId == s.runs[k].nextEventId
    ensures EventsMatch(rows, s')
  {
    assert forall k' :: k' in s.runs ==> s'.runs[k'].history == s.runs[k'].history;
  }

  lemma SameTaskMatch(rows: map<nat, WorkflowRow>, s: State, k: RunKey, r': Run, s': State)
    requires WorkflowTasksMatch(rows, s) && Replaces(s, k, r', s') && r'.task == s.runs[k].task
    ensures WorkflowTasksMatch(rows, s')
  {
    assert forall k' :: k' in s.runs ==> s'.runs[k'].task == s.runs[k'].task;
  }

  lemma SameActivitiesMatch(rows: map<nat, ActivityRow>, s: State, k: RunKey, r': Run, s': State)
    requires ActivityTasksMatch(rows, s) && Replaces(s, k, r', s')
    requires r'.activities == s.runs[k].activities && r'.nextEventId >= s.runs[k].nextEventId
    ensures ActivityTasksMatch(rows, s')
  {
    assert forall k' :: k' in s.runs ==> s'.runs[k'].activities == s.runs[k'].activities;
  }

  lemma SameTimersMatch(rows: map<TimerRef, TimerRow>, s: State, k: RunKey, r': Run, s': State)
    requires TimersMatch(rows, s) && Replaces(s, k, r', s')
    requires r'.timers == s.runs[k].timers && r'.nextEventId >= s.runs[k].nextEventId
    ensures TimersMatch(rows, s')
  {
    assert forall k' :: k' in s.runs ==> s'.runs[k'].timers == s.runs[k'].timers;
  }

  lemma ExecutionRowMatch(rows: map<RunKey, ExecutionRow>, s: State, k: RunKey, r': Run, s': State)
    requires ExecutionsMatch(rows, s) && Replaces(s, k, r', s')
    ensures ExecutionsMatch(rows[k := RowOf(r')], s')
    ensures RowOf(r') == RowOf(s.runs[k]) ==> ExecutionsMatch(rows, s')
  {
    if RowOf(r') == RowOf(s.runs[k]) {
      assert rows == rows[k := RowOf(r')];
    }
  }

  lemma TaskInserted(rows: map<nat, WorkflowRow>, s: State, k: RunKey, row: WorkflowRow)
    requires WorkflowTasksMatch(rows, s) && k in s.runs && s.runs[k].task.None? && row.key == k
    ensures WorkflowTasksMatch(rows[s.workflowSeq := row],
                               Put(s, k, s.runs[k].(task := Some(TaskOf(s.workflowSeq, row)))).(workflowSeq := s.workflowSeq + 1))
  {
  }

  lemma TaskUpdated(rows: map<nat, WorkflowRow>, s: State, t: nat, row: WorkflowRow)
    requires WorkflowTasksMatch(rows, s) && t in rows && row.key == rows[t].key
    ensures WorkflowTasksMatch(rows[t := row], Put(s, row.key, s.runs[row.key].(task := Some(TaskOf(t, row)))))
  {
  }

  lemma TaskDeleted(rows: map<nat, WorkflowRow>, s: State, t: nat)
    requires WorkflowTasksMatch(rows, s) && t in rows
    ensures WorkflowTasksMatch(rows - {t}, Put(s, rows[t].key, s.runs[rows[t].key].(task := None)))
  {
  }

  lemma ActivityInserted(rows: map<nat, ActivityRow>, s: State, k: RunKey, row: ActivityRow)
    requires ActivityTasksMatch(rows, s) && k in s.runs && row.key == k
    requires row.scheduledId !in s.runs[k].activities && row.scheduledId < s.runs[k].nextEventId
    ensures ActivityTasksMatch(rows[s.activitySeq := row],
                               Put(s, k, s.runs[k].(activities := s.runs[k].activities[row.scheduledId := ActivityOf(s.activitySeq, row)]))
                               .(activitySeq := s.activitySeq + 1))
  {
  }

  lemma ActivityUpdated(rows: map<nat, ActivityRow>, s: State, t: nat, row: ActivityRow)
    requires ActivityTasksMatch(rows, s) && t in rows && row.key == rows[t].key && row.scheduledId == rows[t].scheduledId
    ensures ActivityTasksMatch(rows[t := row],
                               Put(s, row.key, s.runs[row.key].(activities := s.runs[row.key].activities[row.scheduledId := ActivityOf(t, row)])))
  {
  }

  lemma ActivityDeleted(rows: map<nat, ActivityRow>, s: State, t: nat)
    requires ActivityTasksMatch(rows, s) && t in rows
    ensures var k := rows[t].key;
            ActivityTasksMatch(rows - {t}, Put(s, k, s.runs[k].(activities := s.runs[k].activities - {rows[t].scheduledId})))
  {
  }

  lemma TimerSet(rows: map<TimerRef, TimerRow>, s: State, d: TimerRef, row: TimerRow)
    requires TimersMatch(rows, s) && d.0 in s.runs && d.1 < s.runs[d.0].nextEventId
    ensures TimersMatch(rows[d := row], Put(s, d.0, s.runs[d.0].(timers := s.runs[d.0].timers[d.1 := row])))
  {
  }

  // ---------------------------------------------------------------- all tables together

  datatype Tables = Tables(
    executions: map<RunKey, ExecutionRow>,
    events: map<EventRef, Event>,
    workflowTasks: map<nat, WorkflowRow>,
    activityTasks: map<nat, ActivityRow>,
    timers: map<TimerRef, TimerRow>)

  ghost predicate Represents(t: Tables, s: State) {
    && ExecutionsMatch(t.executions, s)
    && EventsMatch(t.events, s)
    && WorkflowTasksMatch(t.workflowTasks, s)
    && ActivityTasksMatch(t.activityTasks, s)
    && TimersMatch(t.timers, s)
  }

  lemma RowsKnown(t: Tables, s: State)
    requires Represents(t, s)
    ensures t.executions.Keys == s.runs.Keys && forall k :: k in s.runs ==> t.executions[k] == RowOf(s.runs[k])
    ensures forall k, token: int :: HoldsWorkflow(s, k, token) <==>
              token >= 0 && token in t.workflowTasks && t.workflowTasks[token].key == k
    ensures forall k, a, token: int :: HoldsActivity(s, k, a, token) <==>
              token >= 0 && token in t.activityTasks && t.activityTasks[token].key == k && t.activityTasks[token].scheduledId == a
  {
    hide EventsMatch, TimersMatch;
  }

  lemma EventsKnown(t: Tables, s: State, k: RunKey)
    requires Represents(t, s) && k in s.runs
    ensures s.runs[k].nextEventId == |s.runs[k].history| + 1
    ensures forall id :: (k, id) in t.events <==> 1 <= id <= |s.runs[k].history|
    ensures forall id :: 1 <= id <= |s.runs[k].history| ==> t.events[(k, id)] == s.runs[k].history[id - 1]
  {
    hide ExecutionsMatch, WorkflowTasksMatch, ActivityTasksMatch, TimersMatch;
  }

  lemma TaskRowsKnown(t: Tables, s: State)
    requires Represents(t, s)
    ensures forall token :: token in t.workflowTasks ==>
              t.workflowTasks[token].key in s.runs && s.runs[t.workflowTasks[token].key].task == Some(TaskOf(token, t.workflowTasks[token]))
    ensures forall k :: k in s.runs && s.runs[k].task.Some? ==>
              s.runs[k].task.value.taskId in t.workflowTasks && t.workflowTasks[s.runs[k].task.value.taskId].key == k
  {
    hide ExecutionsMatch, EventsMatch, ActivityTasksMatch, TimersMatch;
  }

  lemma ActivityRowsKnown(t: Tables, s: State)
    requires Represents(t, s)
    ensures forall token :: token in t.activityTasks ==>
              var row := t.activityTasks[token];
              row.key in s.runs && row.scheduledId in s.runs[row.key].activities
              && s.runs[row.key].activities[row.scheduledId] == ActivityOf(token, row)
    ensures forall k, a :: k in s.runs && a in s.runs[k].activities ==>
              && s.runs[k].activities[a].taskId in t.activityTasks
              && t.activityTasks[s.runs[k].activities[a].taskId].key == k && t.activityTasks[s.runs[k].activities[a].taskId].scheduledId == a
  {
    hide ExecutionsMatch, EventsMatch, WorkflowTasksMatch, TimersMatch;
  }

  lemma IdsKnown(t: Tables, s: State, k: RunKey)
    requires Represents(t, s) && k in s.runs
    ensures forall a :: a in s.runs[k].activities ==> a < s.runs[k].nextEventId
    ensures forall d :: d in s.runs[k].timers ==> d < s.runs[k].nextEventId
  {
    hide ExecutionsMatch, EventsMatch, WorkflowTasksMatch;
  }

  lemma TimerRowsKnown(t: Tables, s: State)
    requires Represents(t, s)
    ensures forall d :: d in t.timers <==> d.0 in s.runs && d.1 in s.runs[d.0].timers
    ensures forall d :: d in t.timers ==> t.timers[d] == s.runs[d.0].timers[d.1]
  {
    hide ExecutionsMatch, EventsMatch, WorkflowTasksMatch, ActivityTasksMatch;
    forall d: TimerRef | d.0 in s.runs && d.1 in s.runs[d.0].timers
      ensures d in t.timers
    {
      var k, i := d.0, d.1;
      assert TimersMatch(t.timers, s) && i in s.runs[k].timers;
      assert (k, i) in t.timers && (k, i) == d;
    }
  }

  lemma AppendRep(t: Tables, s: State, k: RunKey, now: int, attrs: seq<Attributes>, events': map<EventRef, Event>)
    requires Represents(t, s) && k in s.runs && StampedRows(t.events, events', k, s.runs[k].nextEventId, now, attrs)
    ensures var r' := AppendAll(s.runs[k], now, attrs);
            Represents(t.(events := events', executions := t.executions[k := RowOf(r')]), Put(s, k, r'))
  {
    hide ExecutionsMatch, EventsMatch, WorkflowTasksMatch, ActivityTasksMatch, TimersMatch, Stamped;
    var r' := AppendAll(s.runs[k], now, attrs);
    var s' := Put(s, k, r');
    StampedRowsMatch(t.events, events', s, k, now, attrs);
    ExecutionRowMatch(t.executions, s, k, r', s');
    SameTaskMatch(t.workflowTasks, s, k, r', s');
    SameActivitiesMatch(t.activityTasks, s, k, r', s');
    SameTimersMatch(t.timers, s, k, r', s');
  }

  /** Replacing a run's task, with a workflow table that follows, keeps the rest. */
  lemma TaskRep(t: Tables, s: State, k: RunKey, task: Option<WorkflowTask>, rows: map<nat, WorkflowRow>, s': State)
    requires Represents(t, s) && k in s.runs
    requires Replaces(s, k, s.runs[k].(task := task), s') && WorkflowTasksMatch(rows, s')
    ensures Represents(t.(workflowTasks := rows), s')
  {
    hide ExecutionsMatch, EventsMatch, WorkflowTasksMatch, ActivityTasksMatch, TimersMatch;
    var r' := s.runs[k].(task := task);
    ExecutionRowMatch(t.executions, s, k, r', s');
    SameEventsMatch(t.events, s, k, r', s');
    SameActivitiesMatch(t.activityTasks, s, k, r', s');
    SameTimersMatch(t.timers, s, k, r', s');
  }

  /** The same for its activities. */
  lemma ActivityRep(t: Tables, s: State, k: RunKey, activities: map<int, ActivityTask>, rows: map<nat, ActivityRow>, s': State)
    requires Represents(t, s) && k in s.runs
    requires Replaces(s, k, s.runs[k].(activities := activities), s') && ActivityTasksMatch(rows, s')
    ensures Represents(t.(activityTasks := rows), s')
  {
    hide ExecutionsMatch, EventsMatch, WorkflowTasksMatch, ActivityTasksMatch, TimersMatch;
    var r' := s.runs[k].(activities := activities);
    ExecutionRowMatch(t.executions, s, k, r', s');
    SameEventsMatch(t.events, s, k, r', s');
    SameTaskMatch(t.workflowTasks, s, k, r', s');
    SameTimersMatch(t.timers, s, k, r', s');
  }

  lemma EnqueueRep(t: Tables, s: State, k: RunKey)
    requires Represents(t, s) && k in s.runs
    ensures var r' := Enqueue(s.runs[k], s.workflowSeq, s.now);
            var rows := if s.runs[k].task.Some? then t.workflowTasks
                        else t.workflowTasks[s.workflowSeq := WorkflowRow(k, s.runs[k].queue, s.now, None, None)];
            Represents(t.(workflowTasks := rows), Put(s, k, r').(workflowSeq := s.workflowSeq + 1))
  {
    hide ExecutionsMatch, EventsMatch, WorkflowTasksMatch, ActivityTasksMatch, TimersMatch;
    var r' := Enqueue(s.runs[k], s.workflowSeq, s.now);
    var s' := Put(s, k, r').(workflowSeq := s.workflowSeq + 1);
    if s.runs[k].task.Some? {
      SameTaskMatch(t.workflowTasks, s, k, r', s');
      TaskRep(t, s, k, r'.task, t.workflowTasks, s');
    } else {
      var row := WorkflowRow(k, s.runs[k].queue, s.now, None, None);
      TaskInserted(t.workflowTasks, s, k, row);
      TaskRep(t, s, k, r'.task, t.workflowTasks[s.workflowSeq := row], s');
    }
  }

  lemma TaskUpdateRep(t: Tables, s: State, token: nat, row: WorkflowRow)
    requires Represents(t, s) && token in t.workflowTasks && row.key == t.workflowTasks[token].key
    ensures row.key in s.runs
    ensures Represents(t.(workflowTasks := t.workflowTasks[token := row]), Put(s, row.key, s.runs[row.key].(task := Some(TaskOf(token, row)))))
  {
    hide ExecutionsMatch, EventsMatch, WorkflowTasksMatch, ActivityTasksMatch, TimersMatch;
    TaskKey(t.workflowTasks, s, token);
    TaskUpdated(t.workflowTasks, s, token, row);
    TaskRep(t, s, row.key, Some(TaskOf(token, row)), t.workflowTasks[token := row],
            Put(s, row.key, s.runs[row.key].(task := Some(TaskOf(token, row)))));
  }

  lemma TaskKey(rows: map<nat, WorkflowRow>, s: State, token: nat)
    requires WorkflowTasksMatch(rows, s) && token in rows
    ensures rows[token].key in s.runs && s.runs[rows[token].key].task == Some(TaskOf(token, rows[token]))
  {
  }

  lemma ActivityKey(rows: map<nat, ActivityRow>, s: State, token: nat)
    requires ActivityTasksMatch(rows, s) && token in rows
    ensures rows[token].key in s.runs && rows[token].scheduledId in s.runs[rows[token].key].activities
    ensures s.runs[rows[token].key].activities[rows[token].scheduledId] == ActivityOf(token, rows[token])
  {
  }

  lemma TaskDeleteRep(t: Tables, s: State, token: nat)
    requires Represents(t, s) && token in t.workflowTasks
    ensures t.workflowTasks[token].key in s.runs
    ensures var k := t.workflowTasks[token].key;
            Represents(t.(workflowTasks := t.workflowTasks - {token}), Put(s, k, s.runs[k].(task := None)))
  {
    hide ExecutionsMatch, EventsMatch, WorkflowTasksMatch, ActivityTasksMatch, TimersMatch;
    TaskKey(t.workflowTasks, s, token);
    TaskDeleted(t.workflowTasks, s, token);
    var k := t.workflowTasks[token].key;
    TaskRep(t, s, k, None, t.workflowTasks - {token}, Put(s, k, s.runs[k].(task := None)));
  }

  lemma ActivityInsertRep(t: Tables, s: State, row: ActivityRow)
    requires Represents(t, s) && row.key in s.runs
    requires row.scheduledId !in s.runs[row.key].activities && row.scheduledId < s.runs[row.key].nextEventId
    ensures Represents(t.(activityTasks := t.activityTasks[s.activitySeq := row]),
                       Put(s, row.key, WithActivity(s.runs[row.key], row.scheduledId, ActivityOf(s.activitySeq, row)))
                       .(activitySeq := s.activitySeq + 1))
  {
    hide ExecutionsMatch, EventsMatch, WorkflowTasksMatch, ActivityTasksMatch, TimersMatch;
    var k, r' := row.key, WithActivity(s.runs[row.key], row.scheduledId, ActivityOf(s.activitySeq, row));
    ActivityInserted(t.activityTasks, s, k, row);
    ActivityRep(t, s, k, r'.activities, t.activityTasks[s.activitySeq := row], Put(s, k, r').(activitySeq := s.activitySeq + 1));
  }

  lemma ActivityUpdateRep(t: Tables, s: State, token: nat, row: ActivityRow)
    requires Represents(t, s) && token in t.activityTasks
    requires row.key == t.activityTasks[token].key && row.scheduledId == t.activityTasks[token].scheduledId
    ensures row.key in s.runs
    ensures Represents(t.(activityTasks := t.activityTasks[token := row]),
                       Put(s, row.key, WithActivity(s.runs[row.key], row.scheduledId, ActivityOf(token, row))))
  {
    hide ExecutionsMatch, EventsMatch, WorkflowTasksMatch, ActivityTasksMatch, TimersMatch;
    ActivityKey(t.activityTasks, s, token);
    var k, r' := row.key, WithActivity(s.runs[row.key], row.scheduledId, ActivityOf(token, row));
    ActivityUpdated(t.activityTasks, s, token, row);
    ActivityRep(t, s, k, r'.activities, t.activityTasks[token := row], Put(s, k, r'));
  }

  lemma ActivityDeleteRep(t: Tables, s: State, token: nat)
    requires Represents(t, s) && token in t.activityTasks
    ensures t.activityTasks[token].key in s.runs
    ensures var row := t.activityTasks[token];
            Represents(t.(activityTasks := t.activityTasks - {token}), Put(s, row.key, WithoutActivity(s.runs[row.key], row.scheduledId)))
  {
    hide ExecutionsMatch, EventsMatch, WorkflowTasksMatch, ActivityTasksMatch, TimersMatch;
    ActivityKey(t.activityTasks, s, token);
    var row := t.activityTasks[token];
    var r' := WithoutActivity(s.runs[row.key], row.scheduledId);
    ActivityDeleted(t.activityTasks, s, token);
    ActivityRep(t, s, row.key, r'.activities, t.activityTasks - {token}, Put(s, row.key, r'));
  }

  lemma TimerRep(t: Tables, s: State, d: TimerRef, row: TimerRow)
    requires Represents(t, s) && d.0 in s.runs && d.1 < s.runs[d.0].nextEventId
    ensures Represents(t.(timers := t.timers[d := row]), Put(s, d.0, s.runs[d.0].(timers := s.runs[d.0].timers[d.1 := row])))
  {
    hide ExecutionsMatch, EventsMatch, WorkflowTasksMatch, ActivityTasksMatch, TimersMatch;
    var k, r' := d.0, s.runs[d.0].(timers := s.runs[d.0].timers[d.1 := row]);
    var s' := Put(s, k, r');
    TimerSet(t.timers, s, d, row);
    ExecutionRowMatch(t.executions, s, k, r', s');
    SameEventsMatch(t.events, s, k, r', s');
    SameTaskMatch(t.workflowTasks, s, k, r', s');
    SameActivitiesMatch(t.activityTasks, s, k, r', s');
  }

  lemma StatusRep(t: Tables, s: State, k: RunKey, status: RunStatus)
    requires Represents(t, s) && k in s.runs
    ensures k in t.executions
    ensures Represents(t.(executions := t.executions[k := t.executions[k].(status := status)]), Put(s, k, s.runs[k].(status := status)))
  {
    hide EventsMatch, WorkflowTasksMatch, ActivityTasksMatch, TimersMatch;
    var r' := s.runs[k].(status := status);
    var s' := Put(s, k, r');
    ExecutionRowMatch(t.executions, s, k, r', s');
    SameEventsMatch(t.events, s, k, r', s');
    SameTaskMatch(t.workflowTasks, s, k, r', s');
    SameActivitiesMatch(t.activityTasks, s, k, r', s');
    SameTimersMatch(t.timers, s, k, r', s');
  }

  predicate Blank(r: Run) {
    r.history == [] && r.nextEventId == 1 && r.task.None? && r.activities == map[] && r.timers == map[]
  }

  lemma BlankEvents(rows: map<EventRef, Event>, s: State, k: RunKey, r: Run)
    requires EventsMatch(rows, s) && k !in s.runs && Blank(r)
    ensures EventsMatch(rows, Put(s, k, r))
  {
  }

  lemma BlankTask(rows: map<nat, WorkflowRow>, s: State, k: RunKey, r: Run)
    requires WorkflowTasksMatch(rows, s) && k !in s.runs && Blank(r)
    ensures WorkflowTasksMatch(rows, Put(s, k, r))
  {
  }

  lemma BlankActivities(rows: map<nat, ActivityRow>, s: State, k: RunKey, r: Run)
    requires ActivityTasksMatch(rows, s) && k !in s.runs && Blank(r)
    ensures ActivityTasksMatch(rows, Put(s, k, r))
  {
  }

  lemma BlankTimers(rows: map<TimerRef, TimerRow>, s: State, k: RunKey, r: Run)
    requires TimersMatch(rows, s) && k !in s.runs && Blank(r)
    ensures TimersMatch(rows, Put(s, k, r))
  {
  }

  /** A new execution row, with no other rows yet. */
  lemma ExecutionRep(t: Tables, s: State, k: RunKey, r: Run)
    requires Represents(t, s) && k !in s.runs && Blank(r)
    ensures Represents(t.(executions := t.executions[k := RowOf(r)]), Put(s, k, r))
  {
    hide EventsMatch, WorkflowTasksMatch, ActivityTasksMatch, TimersMatch, Blank;
    BlankEvents(t.events, s, k, r);
    BlankTask(t.workflowTasks, s, k, r);
    BlankActivities(t.activityTasks, s, k, r);
    BlankTimers(t.timers, s, k, r);
  }

  lemma ClockEvents(rows: map<EventRef, Event>, s: State, now: int)
    requires EventsMatch(rows, s)
    ensures EventsMatch(rows, s.(now := now))
  {
  }

  lemma ClockTasks(rows: map<nat, WorkflowRow>, s: State, now: int)
    requires WorkflowTasksMatch(rows, s)
    ensures WorkflowTasksMatch(rows, s.(now := now))
  {
  }

  lemma ClockActivities(rows: map<nat, ActivityRow>, s: State, now: int)
    requires ActivityTasksMatch(rows, s)
    ensures ActivityTasksMatch(rows, s.(now := now))
  {
  }

  lemma ClockTimers(rows: map<TimerRef, TimerRow>, s: State, now: int)
    requires TimersMatch(rows, s)
    ensures TimersMatch(rows, s.(now := now))
  {
  }

  /** The tables do not hold the clock. */
  lemma ClockRep(t: Tables, s: State, now: int)
    requires Represents(t, s)
    ensures Represents(t, s.(now := now))
  {
    hide EventsMatch, WorkflowTasksMatch, ActivityTasksMatch, TimersMatch;
    ClockEvents(t.events, s, now);
    ClockTasks(t.workflowTasks, s, now);
    ClockActivities(t.activityTasks, s, now);
    ClockTimers(t.timers, s, now);
  }
}
