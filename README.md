# Progress-file updater: a Dafny model

This project models the aggregation core of `scripts/update-progress.py`, the script that
keeps a project's `progress.yaml` in step with its issue tracker. The script fetches the
repository's issues and then does three things with them. It counts tasks, completed tasks,
in-progress issues and blocked issues. It counts the tasks closed in the last seven days to
get a velocity. It sorts issues into six fixed delivery phases by title and gives each phase a
status. It then edits the loaded document in place: it merges the counters into `metrics`,
stores the rounded velocity, replaces `phases`, points `current_status` at the first phase in
progress, sets a traffic-light health and stamps the time.

Modules:

- `Seqs` (seqs.dfy): `Filter`, the list comprehension `[x for x in s if p(x)]`, and lemmas about
  the length of what it keeps.
- `Issues` (issues.dfy): the issue record, the label and state predicates, and case-sensitive
  substring search (`Contains`) with its characterisation by positions.
- `Metrics` (metrics.dfy): `get_project_metrics` and the counting part of `calculate_velocity`.
- `Phases` (phases.dfy): the phase table and `get_phase_status`, written as a loop that appends
  one record per phase, as in the script.
- `Progress` (progress.dfy): the document as a class (`ProgressDocument`) whose `Update` method
  edits `current_status`, `metrics` and `phases` in place. Pure specification functions
  describe the new state, and lemmas say what the edits keep, overwrite and make idempotent.

Modelling choices:

- Timestamps are whole seconds. `now` is passed in, taken as the clock rounded down to a whole
  second. `closed_at` values are whole seconds, so `closed_at > now - 604800` gives the same
  answer whether `now` is the exact clock reading or its floor.
- `last_updated` gets a `stamp` string passed in. Rendering the clock in ISO-8601 is not
  modelled.
- The stored velocity `round(len(recent) / 7.0, 2)` is modelled exactly as a whole number of
  hundredths (`Value.Decimal`). This is the integer nearest to `100 * recent / 7`. That
  quotient is never an odd multiple of one half, so no rounding tie can arise.
- Loaded YAML values are a `Value` datatype. `current_status` and `metrics` are maps from
  strings to values. `phases` holds typed `PhaseRecord`s because the update always replaces it.
- The script crashes when a key it reads is missing. The model turns each of these into a
  precondition or a type. `metrics` must hold a `velocity` mapping (`HasVelocityTable`).
  `current_status` is always a mapping. Every issue has a title, a state, a list of label
  names and a closing time.
- An issue's state is `Open` or `Closed`, the only two states the tracker returns. The script
  compares the state with "closed" and "open" and does not crash on any other string. Such an
  issue would count as a task and towards its phase's `tasks_total`, but never as completed or
  as open. The model cannot represent it.
- The pull-request marker is modelled as a boolean. It is true when the issue has a truthy
  `pull_request` field.
- An empty phase is always "not_started": with no matching issue there is no open
  "in-progress" issue to consult (`Phases.InProgressIff`).
- Two runs on the same issues and clock agree on `metrics`, `phases` and the phase pointer
  and health. `ProgressDocument.UpdateTwice` states this as a postcondition. It is proved from
  the postcondition of `Update` with `MergeIsIdempotent` and `StatusRerunKeepsPointer`.
- The scan for the current phase sits in its own method, `PointToCurrentPhase`, and keeps the
  script's early exit (`break`). The in-place edits of lines 117–135 form `Apply`, which
  `Update` calls after aggregating.

## Model

| member | source | states |
|---|---|---|
| `Seqs.Filter` | scripts/update-progress.py:30-35 | a value is in the result if and only if it is in the input and satisfies the condition, and the result is never longer than the input (multiplicities: `FilterMultiplicity`) |
| `Seqs.FilterStronger` | scripts/update-progress.py:30-31 | filtering by a stronger condition keeps no more elements, as a sub-multiset |
| `Seqs.FilterFilter` | scripts/update-progress.py:31 | filtering by one condition and then another is filtering by their conjunction |
| `Seqs.FilterKeepsAll` | scripts/update-progress.py:84 | the count of kept elements equals the input length if and only if every element satisfies the condition |
| `Seqs.FilterSplit` | scripts/update-progress.py:30 | the kept and the dropped elements add up to the input length |
| `Seqs.FilterMultiplicity` | scripts/update-progress.py:30-35 | every value that satisfies the condition is kept exactly as often as it occurs in the input, and no other value is kept, so each `len(...)` counts duplicates |
| `Seqs.FilterAppend` | scripts/update-progress.py:32-35 | filtering a list with one more element appends that element to the result exactly when it satisfies the condition |
| `Seqs.FilterNone` | scripts/update-progress.py:46-49 | when no element satisfies the condition, the comprehension is empty |
| `Issues.ContainsOccurs` | scripts/update-progress.py:79 | `title in issue_title` holds if and only if the fragment occurs at some position of the title |
| `Issues.ContainsLength` | scripts/update-progress.py:79 | the empty fragment is in every title, and a fragment longer than the title is in none |
| `Metrics.ProjectMetrics` | scripts/update-progress.py:28-42 | completed ≤ total ≤ number of issues; the in-progress and blocked counts are each ≤ the number of issues; an empty issue list gives all zeros |
| `Metrics.TotalExcludesPullRequests` | scripts/update-progress.py:30 | total tasks plus pull requests equals the number of issues |
| `Metrics.CompletedAreClosedTasks` | scripts/update-progress.py:31 | the completed count is the number of closed issues among the tasks |
| `Metrics.LabelCountsIncludePullRequests` | scripts/update-progress.py:32-35 | an open pull request raises the in-progress or blocked count when it has that label, and leaves the task count alone |
| `Metrics.RecentClosed` | scripts/update-progress.py:46-53 | an issue is in the recent list if and only if it is in the input, is a closed task and closed strictly after now minus 604800 seconds |
| `Metrics.RecentClosuresBounded` | scripts/update-progress.py:46-53 | the recent count is ≤ completed tasks, is 0 when no task is closed, and equals the number of closed tasks inside the window |
| `Metrics.WindowBoundary` | scripts/update-progress.py:51-53 | a task closed exactly seven days before now is excluded; one closed a second later is included |
| `Metrics.VelocityHundredths` | scripts/update-progress.py:119 | the stored velocity, in hundredths, is strictly within one half of 100 × recent / 7, so it is the correctly rounded value |
| `Phases.PhaseIssues` | scripts/update-progress.py:79 | an issue belongs to a phase if and only if its title contains one of the phase's fragments; pull requests are not excluded |
| `Phases.PhaseOf` | scripts/update-progress.py:79-98 | the record has phase number n and the table's name for n, tasks_completed ≤ tasks_total, and tasks_total is the number of matching issues |
| `Phases.PhaseTable` | scripts/update-progress.py:59-100 | exactly six records with phase numbers 1 to 6 in order, names from the fixed table, and completed ≤ total in each |
| `Phases.GetPhaseStatus` | scripts/update-progress.py:57-100 | the loop that appends one record per phase returns exactly the phase table |
| `Phases.CompletedIff` | scripts/update-progress.py:83-85 | a phase is "completed" if and only if it has at least one issue and all of its issues are closed |
| `Phases.InProgressIff` | scripts/update-progress.py:86-90 | a phase that is not completed is "in_progress" if and only if one of its issues is closed or one is open and labelled "in-progress"; a phase with no issues is "not_started" |
| `Phases.MembershipByTitle` | scripts/update-progress.py:79 | phase membership is a case-sensitive substring match of any of the phase's fragments at some position of the title |
| `Progress.CountEntries` | scripts/update-progress.py:37-42 | the returned mapping has exactly the four counter keys, bound to the four counts |
| `Progress.MergedMetrics` | scripts/update-progress.py:118-119 | the merge adds the four counter keys with the new counts and keeps every other key's value; inside `velocity` it sets `current` and keeps every other entry |
| `Progress.MergeIsIdempotent` | scripts/update-progress.py:118-119 | merging the same counts and velocity a second time changes nothing |
| `Progress.FirstInProgress` | scripts/update-progress.py:123-127 | it returns the index of the first in-progress phase, with none before it; it returns none if and only if no phase is in progress |
| `Progress.PointToCurrentPhase` | scripts/update-progress.py:123-127 | the early-exit scan writes `phase` and `phase_name` from the first in-progress phase, or returns the status unchanged |
| `Progress.Health` | scripts/update-progress.py:130-135 | "red" if and only if blocked > 2; "yellow" if and only if blocked is 1 or 2; "green" if and only if blocked is 0 or less |
| `Progress.UpdatedStatusSpec` | scripts/update-progress.py:117-135 | the update sets `last_updated` and `health` and keeps all other keys; `phase` and `phase_name` come from the first in-progress phase, or keep their old presence and values when no phase is in progress |
| `Progress.StatusRerunKeepsPointer` | scripts/update-progress.py:117-135 | rerunning the status update with the same phases and blocked count gives the same result as one run with the later stamp |
| `Progress.ProgressDocument.Update` | scripts/update-progress.py:110-135 | after a run, `metrics` is the merge of the old metrics with this run's counts and velocity, `phases` is the phase table, and `current_status` is the updated status |
| `Progress.ProgressDocument.Apply` | scripts/update-progress.py:117-135 | the in-place edits produce exactly the merged metrics, the given phases and the updated status; health is read back from the merged `blocked_tasks` |
| `Progress.ProgressDocument.UpdateTwice` | scripts/update-progress.py:110-135 | two runs over the same issues and clock leave `metrics` and `phases` exactly as one run does, and `current_status` as one run with the second stamp does |

## Left out

- `get_issues` and the `GITHUB_API`, `GITHUB_TOKEN`, `REPO` and `headers` settings (lines 12-26) are not modelled. They are an HTTP request and environment configuration. The issues are a parameter of `Update`.
- Loading and dumping the YAML file, opening and writing it, and the two console lines (lines 107-108 and 138-142) are not modelled. They are filesystem and console I/O. The model does not capture YAML key order either.
- `datetime.now` and `datetime.fromisoformat` (lines 51, 53 and 117) are left out. The clock is the parameters `now`, in whole seconds, and `stamp`. Closing times are integers rather than parsed ISO-8601 strings.
- Floating point is left out. The unrounded `len / 7.0` is not stored, only printed, so it is not modelled. The stored velocity is the exact decimal with two places. The model does not capture the binary float nearest to that decimal.
- Crashes on malformed input are not modelled: a missing `closed_at` or a missing key. The model uses types and the `Valid` precondition instead.
- Issue states other than "open" and "closed" are not modelled, because the tracker returns only these two.
- Loaded values other than null, integers, decimals with two places, strings, lists and mappings are not modelled one by one: YAML booleans, other floats and timestamps. They are held by `Value.Other`, an opaque rendering, which the merge copies through unchanged.
