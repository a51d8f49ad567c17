/** The daemon's persisted state: a capped alert list without adjacent repeats, and per-task run counters. */
module DaemonStates {
  import opened Common

  const MAX_ALERTS := 100

  datatype Severity = Info | Warning | Critical

  datatype Alert = Alert(alertId: string, createdAt: string, source: string, severity: Severity, message: string)

  datatype RunStatus = RanOk | RanError

  datatype TaskState = TaskState(
    lastRunAt: Option<string>, lastStatus: Option<RunStatus>, runs: nat, failures: nat, lastError: Option<string>)

  datatype DaemonState = DaemonState(alerts: seq<Alert>, tasks: map<string, TaskState>)

  datatype StoreError = NoState

  predicate SameKind(a: Alert, b: Alert) {
    a.source == b.source && a.severity == b.severity && a.message == b.message
  }

  /** The last `MAX_ALERTS` elements. */
  function LastAlerts(alerts: seq<Alert>): seq<Alert> {
    if |alerts| <= MAX_ALERTS then alerts else alerts[|alerts| - MAX_ALERTS..]
  }

  function WithAlert(alerts: seq<Alert>, alert: Alert): seq<Alert> {
    if alerts != [] && SameKind(alerts[|alerts| - 1], alert) then alerts else LastAlerts(alerts + [alert])
  }

  function AfterRun(tasks: map<string, TaskState>, name: string, status: RunStatus, error: Option<string>, now: string)
    : map<string, TaskState>
  {
    var task := if name in tasks then tasks[name] else TaskState(None, None, 0, 0, None);
    var ran := task.(lastRunAt := Some(now), lastStatus := Some(status), runs := task.runs + 1);
    tasks[name := if status == RanError then ran.(failures := ran.failures + 1, lastError := error) else ran]
  }

  class DaemonStateStore {
    var state: Option<DaemonState>

    constructor (state: Option<DaemonState>)
      ensures this.state == state
    {
      this.state := state;
    }

    /** `add_alert`. */
    method AddAlert(alert: Alert) returns (r: Result<DaemonState, StoreError>)
      modifies this
      ensures old(state).None? ==> r == Err(NoState) && state == None
      ensures old(state).Some? ==>
                && state == Some(old(state).value.(alerts := WithAlert(old(state).value.alerts, alert)))
                && r == Ok(state.value)
      ensures old(state).Some? ==>
                var before := old(state).value.alerts; var last := |before| - 1;
                state.value.alerts ==
                  if before != [] && before[last].source == alert.source && before[last].severity == alert.severity
                     && before[last].message == alert.message then before
                  else if |before| < 100 then before + [alert]
                  else before[|before| - 99..] + [alert]
    {
      if state.None? {
        return Err(NoState);
      }
      var alerts := state.value.alerts;
      if alerts != [] {
        var last := alerts[|alerts| - 1];
        if last.source == alert.source && last.severity == alert.severity && last.message == alert.message {
          return Ok(state.value);
        }
      }
      var combined := alerts + [alert];
      var kept := if |combined| > MAX_ALERTS then combined[|combined| - MAX_ALERTS..] else combined;
      state := Some(state.value.(alerts := kept));
      return Ok(state.value);
    }

    /** `record_task_run`. */
    method RecordTaskRun(name: string, status: RunStatus, error: Option<string>, now: string)
      returns (r: Result<(), StoreError>)
      modifies this
      ensures old(state).None? ==> r == Err(NoState) && state == None
      ensures old(state).Some? ==>
                && r == Ok(())
                && state == Some(old(state).value.(tasks := AfterRun(old(state).value.tasks, name, status, error, now)))
    {
      if state.None? {
        return Err(NoState);
      }
      var task := if name in state.value.tasks then state.value.tasks[name] else TaskState(None, None, 0, 0, None);
      task := task.(lastRunAt := Some(now));
      task := task.(lastStatus := Some(status));
      task := task.(runs := task.runs + 1);
      if status == RanError {
        task := task.(failures := task.failures + 1);
        task := task.(lastError := error);
      }
      state := Some(state.value.(tasks := state.value.tasks[name := task]));
      return Ok(());
    }
  }

  /** The stored alerts after a history of `add_alert` calls on a new daemon state. */
  function AlertsAfter(history: seq<Alert>): seq<Alert> {
    if history == [] then [] else WithAlert(AlertsAfter(history[..|history| - 1]), history[|history| - 1])
  }

  /** The history without the entries that repeat the entry just before them. */
  function Collapsed(history: seq<Alert>): seq<Alert> {
    if |history| <= 1 then history
    else
      var n := |history| - 1;
      Collapsed(history[..n]) + if SameKind(history[n - 1], history[n]) then [] else [history[n]]
  }

  lemma {:induction false} CollapsedEndsAlike(history: seq<Alert>)
    requires history != []
    ensures Collapsed(history) != []
    ensures SameKind(Collapsed(history)[|Collapsed(history)| - 1], history[|history| - 1])
  {
    if |history| > 1 {
      CollapsedEndsAlike(history[..|history| - 1]);
    }
  }

  lemma LastOfLast(alerts: seq<Alert>, alert: Alert)
    ensures LastAlerts(LastAlerts(alerts) + [alert]) == LastAlerts(alerts + [alert])
  {
  }

  lemma LastKeepsEnd(alerts: seq<Alert>)
    requires alerts != []
    ensures LastAlerts(alerts) != [] && LastAlerts(alerts)[|LastAlerts(alerts)| - 1] == alerts[|alerts| - 1]
  {
  }

  /** For every history: the stored list is the last 100 entries of the collapsed history. */
  lemma {:induction false} AlertsAreLastOfCollapsed(history: seq<Alert>)
    ensures AlertsAfter(history) == LastAlerts(Collapsed(history))
  {
    if history != [] {
      var front, alert := history[..|history| - 1], history[|history| - 1];
      AlertsAreLastOfCollapsed(front);
      if front != [] {
        CollapsedEndsAlike(front);
        assert front[|front| - 1] == history[|history| - 2];
        LastKeepsEnd(Collapsed(front));
        LastOfLast(Collapsed(front), alert);
      }
    }
  }

  lemma {:induction false} CollapsedHasNoRepeats(history: seq<Alert>, i: int)
    requires 0 <= i && i + 1 < |Collapsed(history)|
    ensures !SameKind(Collapsed(history)[i], Collapsed(history)[i + 1])
  {
    if |history| > 1 {
      var front := history[..|history| - 1];
      CollapsedEndsAlike(front);
      if i + 1 < |Collapsed(front)| {
        CollapsedHasNoRepeats(front, i);
      }
    }
  }

  /** So it never exceeds 100 entries and never holds adjacent repeats. */
  lemma AlertsStayCappedAndDistinct(history: seq<Alert>, i: int)
    ensures |AlertsAfter(history)| <= 100
    ensures 0 <= i && i + 1 < |AlertsAfter(history)| ==> !SameKind(AlertsAfter(history)[i], AlertsAfter(history)[i + 1])
  {
    AlertsAreLastOfCollapsed(history);
    var collapsed := Collapsed(history);
    if 0 <= i && i + 1 < |AlertsAfter(history)| {
      CollapsedHasNoRepeats(history, i + |collapsed| - |AlertsAfter(history)|);
    }
  }

  datatype TaskRun = TaskRun(name: string, status: RunStatus, error: Option<string>, now: string)

  function TasksAfter(history: seq<TaskRun>): map<string, TaskState> {
    if history == [] then map[]
    else
      var run := history[|history| - 1];
      AfterRun(TasksAfter(history[..|history| - 1]), run.name, run.status, run.error, run.now)
  }

  function RunsOf(history: seq<TaskRun>, name: string): nat {
    if history == [] then 0
    else RunsOf(history[..|history| - 1], name) + if history[|history| - 1].name == name then 1 else 0
  }

  function FailuresOf(history: seq<TaskRun>, name: string): seq<TaskRun> {
    if history == [] then []
    else
      var run := history[|history| - 1];
      FailuresOf(history[..|history| - 1], name) + if run.name == name && run.status == RanError then [run] else []
  }

  /** Counters count, and the last error is that of the latest failing run. */
  lemma {:induction false} CountersCount(history: seq<TaskRun>, name: string)
    ensures name in TasksAfter(history) <==> RunsOf(history, name) > 0
    ensures name in TasksAfter(history) ==>
              var task, failures := TasksAfter(history)[name], FailuresOf(history, name);
              && task.runs == RunsOf(history, name) && task.failures == |failures|
              && task.lastError == if failures == [] then None else failures[|failures| - 1].error
    ensures name !in TasksAfter(history) ==> FailuresOf(history, name) == []
  {
    if history != [] {
      CountersCount(history[..|history| - 1], name);
    }
  }
}
