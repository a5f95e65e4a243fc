/** Issue counts (`get_project_metrics`) and the recent-closure count behind the velocity
    figure (`calculate_velocity`). */
module Metrics {
  import opened Seqs
  import opened Issues

  /** The four counters the script merges into the progress document. */
  datatype Metrics = Metrics(
    totalTasks: nat,
    completedTasks: nat,
    inProgressTasks: nat,
    blockedTasks: nat)

  predicate IsOpenInProgress(i: Issue) {
    IsOpenWithLabel(i, InProgressLabel)
  }

  predicate IsOpenBlocked(i: Issue) {
    IsOpenWithLabel(i, BlockedLabel)
  }

  /** Counts of tasks, completed tasks, and open issues labelled "in-progress" or "blocked". */
  function ProjectMetrics(issues: seq<Issue>): (m: Metrics)
    ensures m.completedTasks <= m.totalTasks <= |issues|
    ensures m.inProgressTasks <= |issues| && m.blockedTasks <= |issues|
    ensures issues == [] ==> m == Metrics(0, 0, 0, 0)
  {
    FilterStronger(issues, IsCompletedTask, IsTask);
    Metrics(
      |Filter(issues, IsTask)|,
      |Filter(issues, IsCompletedTask)|,
      |Filter(issues, IsOpenInProgress)|,
      |Filter(issues, IsOpenBlocked)|)
  }

  /** The task count is the number of issues minus the number of pull requests. */
  lemma {:induction false} TotalExcludesPullRequests(issues: seq<Issue>)
    ensures ProjectMetrics(issues).totalTasks + |Filter(issues, IsPullRequest)| == |issues|
  {
    FilterSplit(issues, IsTask, IsPullRequest);
  }

  /** The completed count is the number of closed issues among the tasks. */
  lemma {:induction false} CompletedAreClosedTasks(issues: seq<Issue>)
    ensures ProjectMetrics(issues).completedTasks == |Filter(Filter(issues, IsTask), IsClosed)|
  {
    FilterFilter(issues, IsTask, IsClosed, IsCompletedTask);
  }

  /** Pull requests do count towards "in-progress" and "blocked" (but not towards the task
      count): appending an open pull request adds one to each label count whose label it
      carries and leaves the task count alone. */
  lemma LabelCountsIncludePullRequests(issues: seq<Issue>, pr: Issue)
    requires pr.isPullRequest && pr.state == Open
    ensures ProjectMetrics(issues + [pr]).inProgressTasks
         == ProjectMetrics(issues).inProgressTasks + (if HasLabel(pr, InProgressLabel) then 1 else 0)
    ensures ProjectMetrics(issues + [pr]).blockedTasks
         == ProjectMetrics(issues).blockedTasks + (if HasLabel(pr, BlockedLabel) then 1 else 0)
    ensures ProjectMetrics(issues + [pr]).totalTasks == ProjectMetrics(issues).totalTasks
  {
    FilterAppend(issues, pr, IsOpenInProgress);
    FilterAppend(issues, pr, IsOpenBlocked);
    FilterAppend(issues, pr, IsTask);
  }

  /** Length of the trailing window, in seconds. */
  const Week: int := 7 * 24 * 60 * 60

  /** Closed tasks whose closing time lies strictly after `now` minus seven days; empty when
      no task is closed. `now` is the clock in whole seconds (see README). */
  function RecentClosed(issues: seq<Issue>, now: int): (r: seq<Issue>)
    ensures forall i :: i in r <==> i in issues && IsCompletedTask(i) && i.closedAt > now - Week
  {
    var closed := Filter(issues, IsCompletedTask);
    if |closed| == 0 then []
    else
      Filter(closed, (i: Issue) => i.closedAt > now - Week)
  }

  /** The number of tasks closed in the last seven days. */
  function RecentClosures(issues: seq<Issue>, now: int): (n: nat)
  {
    |RecentClosed(issues, now)|
  }

  /** The recent count never exceeds the completed count, is zero when nothing is closed, and
      is exactly the number of closed tasks inside the window. */
  lemma {:induction false} RecentClosuresBounded(issues: seq<Issue>, now: int)
    ensures RecentClosures(issues, now) <= ProjectMetrics(issues).completedTasks
    ensures ProjectMetrics(issues).completedTasks == 0 ==> RecentClosures(issues, now) == 0
    ensures RecentClosures(issues, now)
         == |Filter(issues, (i: Issue) => IsCompletedTask(i) && i.closedAt > now - Week)|
  {
    var closed := Filter(issues, IsCompletedTask);
    var inWindow := (i: Issue) => i.closedAt > now - Week;
    FilterFilter(issues, IsCompletedTask, inWindow,
                 (i: Issue) => IsCompletedTask(i) && i.closedAt > now - Week);
    if |closed| == 0 {
      assert forall k :: 0 <= k < |issues| ==> !IsCompletedTask(issues[k]);
      FilterNone(issues, (i: Issue) => IsCompletedTask(i) && i.closedAt > now - Week);
    }
  }

  /** The window is open at its far end: a task closed exactly seven days before `now` is not
      counted, one closed a second later is. */
  lemma WindowBoundary(issues: seq<Issue>, now: int, i: Issue)
    requires i in issues && IsCompletedTask(i)
    ensures i.closedAt == now - Week ==> i !in RecentClosed(issues, now)
    ensures i.closedAt == now - Week + 1 ==> i in RecentClosed(issues, now)
  {
  }

  /** `round(len(recent_closed) / 7.0, 2)`, the velocity in tasks per day as stored, counted in
      hundredths: the integer nearest to `100 * recent / 7`. That quotient is never an odd
      multiple of one half, so no tie arises and Python's rounding mode does not matter. */
  function VelocityHundredths(recent: nat): (c: nat)
    ensures -7 < 14 * c - 200 * recent < 7
  {
    var c := (200 * recent + 7) / 14;
    assert 14 * c <= 200 * recent + 7 < 14 * c + 14;
    assert (14 * c - 200 * recent) % 2 == 0;
    c
  }
}
