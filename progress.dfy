/** The in-memory update of the progress document (`update_progress_file`, after loading and
    before writing): merge the counters, store the velocity, replace the phase list, point
    `current_status` at the first phase in progress and classify health. */
module Progress {
  import opened Issues
  import opened Metrics
  import opened Phases

  datatype Option<T> = None | Some(value: T)

  /** A value as the YAML loader produces it. */
  datatype Value =
    | Null
    | Int(n: int)
    | Decimal(hundredths: int)
    | Text(s: string)
    | List(items: seq<Value>)
    | Table(entries: map<string, Value>)
    | Other(repr: string)  // any other scalar (boolean, float, timestamp), kept as written

  const TotalKey: string := "total_tasks"
  const CompletedKey: string := "completed_tasks"
  const InProgressKey: string := "in_progress_tasks"
  const BlockedKey: string := "blocked_tasks"
  const VelocityKey: string := "velocity"
  const CurrentKey: string := "current"

  const LastUpdatedKey: string := "last_updated"
  const PhaseKey: string := "phase"
  const PhaseNameKey: string := "phase_name"
  const HealthKey: string := "health"

  /** The keys `get_project_metrics` produces. */
  const CountKeys: set<string> := {TotalKey, CompletedKey, InProgressKey, BlockedKey}

  /** The keys of `current_status` that an update may write. */
  const StatusKeys: set<string> := {LastUpdatedKey, PhaseKey, PhaseNameKey, HealthKey}

  /** The counters as the mapping `get_project_metrics` returns. */
  function CountEntries(m: Metrics): (e: map<string, Value>)
    ensures e.Keys == CountKeys
    ensures e[TotalKey] == Int(m.totalTasks) && e[CompletedKey] == Int(m.completedTasks)
    ensures e[InProgressKey] == Int(m.inProgressTasks) && e[BlockedKey] == Int(m.blockedTasks)
  {
    map[TotalKey := Int(m.totalTasks), CompletedKey := Int(m.completedTasks),
        InProgressKey := Int(m.inProgressTasks), BlockedKey := Int(m.blockedTasks)]
  }

  /** The `metrics` mapping has a nested `velocity` mapping, as the script requires. */
  predicate HasVelocityTable(metrics: map<string, Value>) {
    VelocityKey in metrics && metrics[VelocityKey].Table?
  }

  /** `metrics` after the shallow merge of the counters and the store of `velocity.current`. */
  function MergedMetrics(metrics: map<string, Value>, counts: Metrics, velocity: int): (r: map<string, Value>)
    requires HasVelocityTable(metrics)
    ensures HasVelocityTable(r)
    ensures r.Keys == metrics.Keys + CountKeys
    ensures forall key :: key in CountKeys ==> r[key] == CountEntries(counts)[key]
    ensures forall key :: key in metrics && key !in CountKeys && key != VelocityKey ==> r[key] == metrics[key]
    ensures r[VelocityKey].entries.Keys == metrics[VelocityKey].entries.Keys + {CurrentKey}
    ensures r[VelocityKey].entries[CurrentKey] == Decimal(velocity)
    ensures forall key :: key in metrics[VelocityKey].entries && key != CurrentKey ==>
      r[VelocityKey].entries[key] == metrics[VelocityKey].entries[key]
  {
    var merged := metrics + CountEntries(counts);
    merged[VelocityKey := Table(merged[VelocityKey].entries[CurrentKey := Decimal(velocity)])]
  }

  /** Index of the first phase whose status is in progress, if any. */
  function FirstInProgress(phases: seq<PhaseRecord>): (r: Option<nat>)
    ensures r.Some? ==> r.value < |phases| && phases[r.value].status == InProgress
    ensures r.Some? ==> forall j :: 0 <= j < r.value ==> phases[j].status != InProgress
    ensures r.None? <==> forall j :: 0 <= j < |phases| ==> phases[j].status != InProgress
  {
    if |phases| == 0 then None
    else if phases[0].status == InProgress then Some(0)
    else
      match FirstInProgress(phases[1..])
      case None => None
      case Some(k) => Some(k + 1)
  }

  /** `current_status` after the phase pointer is moved to the first phase in progress; left as
      it was when no phase is in progress. */
  function WithCurrentPhase(status: map<string, Value>, phases: seq<PhaseRecord>): map<string, Value>
  {
    match FirstInProgress(phases)
    case None => status
    case Some(k) => status[PhaseKey := Int(phases[k].phase)][PhaseNameKey := Text(phases[k].name)]
  }

  /** Traffic-light health from the number of blocked tasks. */
  function Health(blocked: int): (h: string)
    ensures h == "red" <==> blocked > 2
    ensures h == "yellow" <==> 1 <= blocked <= 2
    ensures h == "green" <==> blocked <= 0
  {
    if blocked > 2 then "red"
    else if blocked > 0 then "yellow"
    else "green"
  }

  /** `current_status` after a whole update. */
  function UpdatedStatus(status: map<string, Value>, phases: seq<PhaseRecord>, blocked: nat, stamp: string)
    : map<string, Value>
  {
    WithCurrentPhase(status[LastUpdatedKey := Text(stamp)], phases)[HealthKey := Text(Health(blocked))]
  }

  /** What an update does to `current_status`: it stamps the time, points at the first phase in
      progress (or keeps the old pointer when there is none), sets the health and keeps every
      other key. */
  lemma UpdatedStatusSpec(status: map<string, Value>, phases: seq<PhaseRecord>, blocked: nat, stamp: string)
    ensures var r := UpdatedStatus(status, phases, blocked, stamp);
      && r[LastUpdatedKey] == Text(stamp)
      && r[HealthKey] == Text(Health(blocked))
      && (forall key :: key !in StatusKeys ==> (key in r <==> key in status))
      && (forall key :: key in status && key !in StatusKeys ==> r[key] == status[key])
      && (forall k :: (0 <= k < |phases| && phases[k].status == InProgress
                       && (forall j :: 0 <= j < k ==> phases[j].status != InProgress)) ==>
          r[PhaseKey] == Int(phases[k].phase) && r[PhaseNameKey] == Text(phases[k].name))
      && ((forall k :: 0 <= k < |phases| ==> phases[k].status != InProgress) ==>
          (PhaseKey in r <==> PhaseKey in status) && (PhaseNameKey in r <==> PhaseNameKey in status)
          && (PhaseKey in status ==> r[PhaseKey] == status[PhaseKey])
          && (PhaseNameKey in status ==> r[PhaseNameKey] == status[PhaseNameKey]))
  {
  }

  /** Merging the same counters and velocity a second time changes nothing. */
  lemma MergeIsIdempotent(metrics: map<string, Value>, counts: Metrics, velocity: int)
    requires HasVelocityTable(metrics)
    ensures var once := MergedMetrics(metrics, counts, velocity);
      MergedMetrics(once, counts, velocity) == once
  {
    var once := MergedMetrics(metrics, counts, velocity);
    var twice := MergedMetrics(once, counts, velocity);
    assert twice[VelocityKey].entries == once[VelocityKey].entries;
  }

  /** Re-running the status update over the same phases and blocked count with a later time
      stamp gives what a single run with that stamp gives: only the stamp moves. */
  lemma StatusRerunKeepsPointer(status: map<string, Value>, phases: seq<PhaseRecord>, blocked: nat,
                                stamp1: string, stamp2: string)
    ensures UpdatedStatus(UpdatedStatus(status, phases, blocked, stamp1), phases, blocked, stamp2)
         == UpdatedStatus(status, phases, blocked, stamp2)
  {
  }

  /** The scan for the current phase: walks the phases in order and, at the first one in
      progress, records its number and name and stops; with none in progress the status comes
      back unchanged. */
  method PointToCurrentPhase(status: map<string, Value>, phases: seq<PhaseRecord>)
    returns (r: map<string, Value>)
    ensures r == WithCurrentPhase(status, phases)
  {
    r := status;
    var i := 0;
    while i < |phases|
      invariant 0 <= i <= |phases|
      invariant forall j :: 0 <= j < i ==> phases[j].status != InProgress
      invariant r == status
    {
      if phases[i].status == InProgress {
        r := r[PhaseKey := Int(phases[i].phase)];
        r := r[PhaseNameKey := Text(phases[i].name)];
        assert FirstInProgress(phases) == Some(i);
        break;
      }
      i := i + 1;
    }
  }

  /** The structured progress document, of which the update reads and writes `current_status`,
      `metrics` and `phases`. */
  class ProgressDocument {
    var currentStatus: map<string, Value>
    var metrics: map<string, Value>
    var phases: seq<PhaseRecord>

    /** The shape the script relies on: a `velocity` mapping inside `metrics`. */
    predicate Valid()
      reads this
    {
      HasVelocityTable(metrics)
    }

    constructor (currentStatus: map<string, Value>, metrics: map<string, Value>, phases: seq<PhaseRecord>)
      requires HasVelocityTable(metrics)
      ensures Valid()
      ensures this.currentStatus == currentStatus && this.metrics == metrics && this.phases == phases
    {
      this.currentStatus := currentStatus;
      this.metrics := metrics;
      this.phases := phases;
    }

    /** One run of the update over the fetched `issues`: aggregate, then apply. `now` is the
        clock in whole seconds used for the velocity window, and `stamp` is the text written to
        `last_updated`, read from the clock separately; the two are independent parameters. */
    method Update(issues: seq<Issue>, now: int, stamp: string)
      requires Valid()
      modifies this
      ensures Valid()
      ensures metrics == MergedMetrics(old(metrics), ProjectMetrics(issues),
                                       VelocityHundredths(RecentClosures(issues, now)))
      ensures phases == PhaseTable(issues)
      ensures currentStatus == UpdatedStatus(old(currentStatus), PhaseTable(issues),
                                             ProjectMetrics(issues).blockedTasks, stamp)
    {
      var counts := ProjectMetrics(issues);
      var velocity := VelocityHundredths(RecentClosures(issues, now));
      var newPhases := GetPhaseStatus(issues);
      Apply(counts, velocity, newPhases, stamp);
    }

    /** Two runs over the same issues and clock leave `metrics` and `phases` as one run does,
        and `current_status` as one run with the later stamp does. */
    method UpdateTwice(issues: seq<Issue>, now: int, stamp1: string, stamp2: string)
      requires Valid()
      modifies this
      ensures Valid()
      ensures metrics == MergedMetrics(old(metrics), ProjectMetrics(issues),
                                       VelocityHundredths(RecentClosures(issues, now)))
      ensures phases == PhaseTable(issues)
      ensures currentStatus == UpdatedStatus(old(currentStatus), PhaseTable(issues),
                                             ProjectMetrics(issues).blockedTasks, stamp2)
    {
      var counts := ProjectMetrics(issues);
      var velocity := VelocityHundredths(RecentClosures(issues, now));
      Update(issues, now, stamp1);
      Update(issues, now, stamp2);
      MergeIsIdempotent(old(metrics), counts, velocity);
      StatusRerunKeepsPointer(old(currentStatus), PhaseTable(issues), counts.blockedTasks, stamp1, stamp2);
    }

    /** The in-place edits of one run, given the aggregates: stamp the time, merge the
        counters, store the velocity (in hundredths), replace the phases, move the phase pointer
        and set the health from the merged blocked count. */
    method Apply(counts: Metrics, velocity: nat, newPhases: seq<PhaseRecord>, stamp: string)
      requires Valid()
      modifies this
      ensures Valid()
      ensures metrics == MergedMetrics(old(metrics), counts, velocity)
      ensures phases == newPhases
      ensures currentStatus == UpdatedStatus(old(currentStatus), newPhases, counts.blockedTasks, stamp)
    {
      currentStatus := currentStatus[LastUpdatedKey := Text(stamp)];
      metrics := metrics + CountEntries(counts);
      metrics := metrics[VelocityKey := Table(metrics[VelocityKey].entries[CurrentKey := Decimal(velocity)])];
      assert metrics == MergedMetrics(old(metrics), counts, velocity);
      phases := newPhases;

      currentStatus := PointToCurrentPhase(currentStatus, phases);

      var blocked := metrics[BlockedKey].n;
      var health;
      if blocked > 2 {
        health := "red";
      } else if blocked > 0 {
        health := "yellow";
      } else {
        health := "green";
      }
      assert health == Health(blocked);
      currentStatus := currentStatus[HealthKey := Text(health)];
    }
  }
}
