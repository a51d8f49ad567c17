/** The daemon's fixed-delay scheduler: one shared due map, tasks that may fail, polls at arbitrary times. */
module Scheduler {
  datatype Task = Task(name: string, interval: real)

  predicate IsDue(nextDue: map<string, real>, name: string, current: real) {
    name !in nextDue || current >= nextDue[name]
  }

  /** Names that run at a poll, in task order, and the due map it leaves. */
  function Poll(tasks: seq<Task>, nextDue: map<string, real>, current: real): (seq<string>, map<string, real>) {
    if tasks == [] then ([], nextDue)
    else
      var task := tasks[|tasks| - 1];
      var (ran, due) := Poll(tasks[..|tasks| - 1], nextDue, current);
      if IsDue(due, task.name, current) then (ran + [task.name], due[task.name := current + task.interval])
      else (ran, due)
  }

  /**
   * The names of the runs that fail, or of those that do not; `fails` says so of each run by its position in the
   * poll.
   */
  function Those(names: seq<string>, fails: nat -> bool, failing: bool): seq<string> {
    if names == [] then []
    else
      var n := |names| - 1;
      Those(names[..n], fails, failing) + if fails(n) == failing then [names[n]] else []
  }

  class TaskRunner {
    const tasks: seq<Task>
    var nextDue: map<string, real>

    constructor (tasks: seq<Task>)
      ensures this.tasks == tasks && nextDue == map[]
    {
      this.tasks := tasks;
      nextDue := map[];
    }

    /** `run_pending`: `fails` says which runs raise; that decides who is notified, never who runs. */
    method RunPending(current: real, fails: nat -> bool)
      returns (ran: seq<string>, succeeded: seq<string>, failed: seq<string>)
      modifies this
      ensures (ran, nextDue) == Poll(tasks, old(nextDue), current)
      ensures succeeded == Those(ran, fails, false) && failed == Those(ran, fails, true)
    {
      ran, succeeded, failed := [], [], [];
      for i := 0 to |tasks|
        invariant (ran, nextDue) == Poll(tasks[..i], old(nextDue), current)
        invariant succeeded == Those(ran, fails, false) && failed == Those(ran, fails, true)
      {
        var task := tasks[i];
        assert tasks[..i + 1][..i] == tasks[..i];
        if task.name in nextDue && current < nextDue[task.name] {
          continue;
        }
        nextDue := nextDue[task.name := current + task.interval];
        assert (ran + [task.name])[..|ran|] == ran;
        ran := ran + [task.name];
        if fails(|ran| - 1) {
          failed := failed + [task.name];
          continue;
        }
        succeeded := succeeded + [task.name];
      }
      assert tasks[..|tasks|] == tasks;
    }
  }

  /** The due map after the first `k` polls. */
  function DueAfter(tasks: seq<Task>, polls: seq<real>, k: nat): map<string, real>
    requires k <= |polls|
  {
    if k == 0 then map[] else Poll(tasks, DueAfter(tasks, polls, k - 1), polls[k - 1]).1
  }

  /** The names that run at poll `k`. */
  function RanAt(tasks: seq<Task>, polls: seq<real>, k: nat): seq<string>
    requires k < |polls|
  {
    Poll(tasks, DueAfter(tasks, polls, k), polls[k]).0
  }

  // ----- one task on its own -----

  /** The task runs at the first poll, and at a later one that has reached its last run plus the interval. */
  predicate RunsAt(interval: real, polls: seq<real>, k: nat)
    requires k < |polls|
    decreases k, 1
  {
    k == 0 || polls[k] >= polls[LastRun(interval, polls, k)] + interval
  }

  /** The poll of the last run before poll `k`. */
  function LastRun(interval: real, polls: seq<real>, k: nat): (j: nat)
    requires 0 < k <= |polls|
    ensures j < k
    decreases k, 0
  {
    if RunsAt(interval, polls, k - 1) then k - 1 else LastRun(interval, polls, k - 1)
  }

  /** Nothing runs between the last run and the poll it is the last run for. */
  lemma {:induction false} LastRunIsLast(interval: real, polls: seq<real>, k: nat)
    requires 0 < k <= |polls|
    ensures RunsAt(interval, polls, LastRun(interval, polls, k))
    ensures forall i :: LastRun(interval, polls, k) < i < k ==> !RunsAt(interval, polls, i)
  {
    if !RunsAt(interval, polls, k - 1) {
      LastRunIsLast(interval, polls, k - 1);
    }
  }

  // ----- names among tasks -----

  predicate Named(tasks: seq<Task>, name: string) {
    exists task :: task in tasks && task.name == name
  }

  /**
   * The interval a name is due again after. Tasks of one name share one due time: the first with a positive interval
   * makes the others wait, or the last decides if none has one.
   */
  function Effective(tasks: seq<Task>, name: string): real
    requires Named(tasks, name)
  {
    var front, last := tasks[..|tasks| - 1], tasks[|tasks| - 1];
    assert tasks == front + [last];
    if Named(front, name) && (last.name != name || Effective(front, name) > 0.0) then Effective(front, name)
    else last.interval
  }

  /** How many tasks of the name run when it is due. */
  function Turns(tasks: seq<Task>, name: string): nat {
    if tasks == [] then 0
    else
      var front, last := tasks[..|tasks| - 1], tasks[|tasks| - 1];
      Turns(front, name)
      + if last.name == name && (!Named(front, name) || Effective(front, name) <= 0.0) then 1 else 0
  }

  /** A name that no other task has is due after its own task's interval, and that task alone runs. */
  lemma {:induction false} OwnNameOwnInterval(tasks: seq<Task>, i: nat)
    requires i < |tasks| && forall j :: 0 <= j < |tasks| && j != i ==> tasks[j].name != tasks[i].name
    ensures Named(tasks, tasks[i].name) && Effective(tasks, tasks[i].name) == tasks[i].interval
    ensures Turns(tasks, tasks[i].name) == 1
  {
    var front, last := tasks[..|tasks| - 1], tasks[|tasks| - 1];
    assert tasks[i] in tasks;
    if i == |tasks| - 1 {
      NamelessTakesNoTurn(front, last.name);
    } else {
      OwnNameOwnInterval(front, i);
    }
  }

  lemma {:induction false} NamelessTakesNoTurn(tasks: seq<Task>, name: string)
    requires !Named(tasks, name)
    ensures Turns(tasks, name) == 0
  {
    if tasks != [] {
      assert tasks[|tasks| - 1] in tasks;
      NamelessTakesNoTurn(tasks[..|tasks| - 1], name);
    }
  }

  /** The first task of a name, if its interval is positive, is the only one of that name that ever runs. */
  lemma {:induction false} FirstOfNameStarvesOthers(tasks: seq<Task>, i: nat)
    requires i < |tasks| && tasks[i].interval > 0.0
    requires forall j :: 0 <= j < i ==> tasks[j].name != tasks[i].name
    ensures Named(tasks, tasks[i].name) && Effective(tasks, tasks[i].name) == tasks[i].interval
    ensures Turns(tasks, tasks[i].name) == 1
  {
    var front := tasks[..|tasks| - 1];
    assert tasks[i] in tasks;
    if i == |tasks| - 1 {
      NamelessTakesNoTurn(front, tasks[i].name);
    } else {
      FirstOfNameStarvesOthers(front, i);
    }
  }

  lemma NamedSplits(tasks: seq<Task>, name: string)
    requires tasks != []
    ensures Named(tasks, name) <==> Named(tasks[..|tasks| - 1], name) || tasks[|tasks| - 1].name == name
  {
    var front, last := tasks[..|tasks| - 1], tasks[|tasks| - 1];
    assert tasks == front + [last];
    assert last in tasks;
  }

  /** What one poll does to one name's entry, and how often the name runs, other names being present. */
  lemma {:induction false} PollTouchesOwnEntryOnly(
    tasks: seq<Task>, nextDue: map<string, real>, current: real, name: string)
    ensures var (ran, due) := Poll(tasks, nextDue, current);
            if Named(tasks, name) && IsDue(nextDue, name, current)
            then && name in due && due[name] == current + Effective(tasks, name)
                 && multiset(ran)[name] == Turns(tasks, name)
            else (name in due <==> name in nextDue) && (name in due ==> due[name] == nextDue[name]) && name !in ran
  {
    if tasks != [] {
      var front := tasks[..|tasks| - 1];
      PollTouchesOwnEntryOnly(front, nextDue, current, name);
      NamedSplits(tasks, name);
      if !Named(front, name) { NamelessTakesNoTurn(front, name); }
    }
  }

  /** A name that is due runs at least once. */
  lemma {:induction false} SomeTurn(tasks: seq<Task>, name: string)
    requires Named(tasks, name)
    ensures Turns(tasks, name) >= 1
  {
    var front := tasks[..|tasks| - 1];
    NamedSplits(tasks, name);
    if Named(front, name) { SomeTurn(front, name); }
  }

  /**
   * For any polls and any failures, every name runs exactly when a single task with its effective interval would, and
   * as often as it has turns; what other names do does not matter.
   */
  lemma {:induction false} TasksRunIndependently(tasks: seq<Task>, polls: seq<real>, k: nat, name: string)
    requires Named(tasks, name) && k <= |polls|
    ensures k < |polls| ==>
              && (name in RanAt(tasks, polls, k) <==> RunsAt(Effective(tasks, name), polls, k))
              && (name in RanAt(tasks, polls, k) ==> multiset(RanAt(tasks, polls, k))[name] == Turns(tasks, name))
    ensures var due := DueAfter(tasks, polls, k); var interval := Effective(tasks, name);
            if k == 0 then name !in due
            else name in due && due[name] == polls[LastRun(interval, polls, k)] + interval
  {
    SomeTurn(tasks, name);
    if k > 0 {
      TasksRunIndependently(tasks, polls, k - 1, name);
      PollTouchesOwnEntryOnly(tasks, DueAfter(tasks, polls, k - 1), polls[k - 1], name);
    }
    if k < |polls| {
      PollTouchesOwnEntryOnly(tasks, DueAfter(tasks, polls, k), polls[k], name);
    }
  }

  function RunCount(interval: real, polls: seq<real>, k: nat): nat
    requires k <= |polls|
  {
    if k == 0 then 0 else RunCount(interval, polls, k - 1) + if RunsAt(interval, polls, k - 1) then 1 else 0
  }

  /** Runs are at least an interval apart, so `n` runs span at least `n - 1` intervals. */
  lemma {:induction false} RunsSpanIntervals(interval: real, polls: seq<real>, k: nat)
    requires 0 < k <= |polls|
    ensures RunCount(interval, polls, k) >= 1
    ensures polls[LastRun(interval, polls, k)] - polls[0] >= (RunCount(interval, polls, k) - 1) as real * interval
  {
    if k > 1 {
      RunsSpanIntervals(interval, polls, k - 1);
      if RunsAt(interval, polls, k - 1) {
        var n := RunCount(interval, polls, k - 1);
        assert n as real * interval == (n - 1) as real * interval + interval;
      }
    } else {
      assert RunCount(interval, polls, 1) == 1;
    }
  }

  /** Up to time `t` there are at most 1 + (t - first) / interval runs. */
  lemma RunCountBound(interval: real, polls: seq<real>, k: nat, t: real)
    requires 0 < k <= |polls| && interval > 0.0
    requires forall i :: 0 <= i < k ==> polls[i] <= t
    ensures RunCount(interval, polls, k) as real <= 1.0 + (t - polls[0]) / interval
  {
    var n, span := RunCount(interval, polls, k), t - polls[0];
    assert (n - 1) as real * interval <= span by {
      RunsSpanIntervals(interval, polls, k);
      assert polls[LastRun(interval, polls, k)] <= t;
    }
    DivideBound((n - 1) as real, interval, span);
    assert n as real == (n - 1) as real + 1.0;
  }

  lemma DivideBound(a: real, b: real, c: real)
    requires b > 0.0 && a * b <= c
    ensures a <= c / b
  {
    var q := c / b;
    assert q * b == c;
    MonotoneTimes(a, q, b);
  }

  lemma MonotoneTimes(a: real, q: real, b: real)
    requires b > 0.0 && a * b <= q * b
    ensures a <= q
  {
    assert (a - q) * b <= 0.0;
  }
}
