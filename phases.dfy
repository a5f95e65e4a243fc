/** Per-phase completion (`get_phase_status`): six fixed delivery phases, each owning the
    issues whose title contains one of the phase's task titles. */
module Phases {
  import opened Seqs
  import opened Issues

  datatype Status = NotStarted | InProgress | Completed

  /** One entry of the document's `phases` list. */
  datatype PhaseRecord = PhaseRecord(
    phase: nat,
    name: string,
    status: Status,
    tasksTotal: nat,
    tasksCompleted: nat)

  const PhaseCount: nat := 6

  /** Task-title fragments of phases 1 to 6, in that order. */
  const PhaseTitles: seq<seq<string>> := [
    ["Core Data Models", "Thread-Safe Message Store", "Mock SNS Endpoint", "Result Pattern Integration"],
    ["Basic Test Client", "Verification Methods", "TUnit Test Helpers"],
    ["Query Endpoints", "Advanced Queries", "ASP.NET Core Integration"],
    ["Basic Web UI", "Advanced UI Features", "Developer Tools"],
    ["Aspire Resource", "Aspire Dashboard"],
    ["Performance Optimization", "NuGet Package", "Documentation"]
  ]

  /** Display names of phases 1 to 6. */
  const PhaseNames: seq<string> := [
    "Core Foundation",
    "Testing Infrastructure",
    "API & Integration",
    "Developer Experience",
    "Platform Integration",
    "Production Readiness"
  ]

  /** The title contains at least one of the fragments. */
  predicate MatchesAny(title: string, fragments: seq<string>) {
    exists k | 0 <= k < |fragments| :: Contains(title, fragments[k])
  }

  /** The issues belonging to the phase with task-title fragments `fragments`. */
  function PhaseIssues(issues: seq<Issue>, fragments: seq<string>): (r: seq<Issue>)
    ensures forall i :: i in r <==> i in issues && MatchesAny(i.title, fragments)
  {
    Filter(issues, (i: Issue) => MatchesAny(i.title, fragments))
  }

  /** Some issue of the list is open and labelled "in-progress". */
  predicate AnyOpenInProgress(issues: seq<Issue>) {
    exists k | 0 <= k < |issues| :: IsOpenWithLabel(issues[k], InProgressLabel)
  }

  /** The record of phase `n` (1 to 6). */
  function PhaseOf(issues: seq<Issue>, n: nat): (r: PhaseRecord)
    requires 1 <= n <= PhaseCount
    ensures r.phase == n && r.name == PhaseNames[n - 1]
    ensures r.tasksCompleted <= r.tasksTotal
    ensures r.tasksTotal == |PhaseIssues(issues, PhaseTitles[n - 1])|
  {
    var phaseIssues := PhaseIssues(issues, PhaseTitles[n - 1]);
    var total := |phaseIssues|;
    var completed := |Filter(phaseIssues, IsClosed)|;
    var status :=
      if completed == total && total > 0 then Completed
      else if completed > 0 then InProgress
      else if AnyOpenInProgress(phaseIssues) then InProgress
      else NotStarted;
    PhaseRecord(n, PhaseNames[n - 1], status, total, completed)
  }

  /** All six records, in phase order. */
  function PhaseTable(issues: seq<Issue>): (t: seq<PhaseRecord>)
    ensures |t| == PhaseCount
    ensures forall k :: 0 <= k < |t| ==> t[k].phase == k + 1 && t[k].name == PhaseNames[k]
    ensures forall k :: 0 <= k < |t| ==> t[k].tasksCompleted <= t[k].tasksTotal
  {
    seq(PhaseCount, (k: int) requires 0 <= k < PhaseCount => PhaseOf(issues, k + 1))
  }

  /** Builds the phase list one phase at a time, as the script's loop over the phase table
      does. */
  method GetPhaseStatus(issues: seq<Issue>) returns (phases: seq<PhaseRecord>)
    ensures phases == PhaseTable(issues)
  {
    phases := [];
    for phaseNum := 1 to PhaseCount + 1
      invariant |phases| == phaseNum - 1
      invariant forall k :: 0 <= k < |phases| ==> phases[k] == PhaseOf(issues, k + 1)
    {
      var phaseIssues := PhaseIssues(issues, PhaseTitles[phaseNum - 1]);
      var total := |phaseIssues|;
      var completed := |Filter(phaseIssues, IsClosed)|;
      var status := NotStarted;
      if completed == total && total > 0 {
        status := Completed;
      } else if completed > 0 {
        status := InProgress;
      } else if AnyOpenInProgress(phaseIssues) {
        status := InProgress;
      }
      phases := phases + [PhaseRecord(phaseNum, PhaseNames[phaseNum - 1], status, total, completed)];
    }
    assert |phases| == |PhaseTable(issues)|;
  }

  /** A phase is completed exactly when it has issues and all of them are closed. */
  lemma CompletedIff(issues: seq<Issue>, n: nat)
    requires 1 <= n <= PhaseCount
    ensures var phaseIssues := PhaseIssues(issues, PhaseTitles[n - 1]);
      ((PhaseOf(issues, n).status == Completed)
        <==> (|phaseIssues| > 0 && forall k :: 0 <= k < |phaseIssues| ==> IsClosed(phaseIssues[k])))
  {
    FilterKeepsAll(PhaseIssues(issues, PhaseTitles[n - 1]), IsClosed);
  }

  /** A phase that is not completed is in progress exactly when one of its issues is closed or
      one is open and labelled "in-progress"; a phase without issues is never started. */
  lemma InProgressIff(issues: seq<Issue>, n: nat)
    requires 1 <= n <= PhaseCount
    ensures var phaseIssues := PhaseIssues(issues, PhaseTitles[n - 1]);
      var r := PhaseOf(issues, n);
      r.status != Completed ==>
        ((r.status == InProgress)
          <==> ((exists k :: 0 <= k < |phaseIssues| && IsClosed(phaseIssues[k]))
                || AnyOpenInProgress(phaseIssues)))
    ensures PhaseOf(issues, n).tasksTotal == 0 ==> PhaseOf(issues, n).status == NotStarted
  {
    var phaseIssues := PhaseIssues(issues, PhaseTitles[n - 1]);
    var closed := Filter(phaseIssues, IsClosed);
    if |closed| > 0 {
      assert closed[0] in phaseIssues && IsClosed(closed[0]);
    }
  }

  /** An issue counts towards a phase exactly when one of the phase's task titles occurs in its
      title. */
  lemma MembershipByTitle(issues: seq<Issue>, fragments: seq<string>, i: Issue)
    ensures (i in PhaseIssues(issues, fragments))
        <==> (i in issues && exists k :: 0 <= k < |fragments|
                                         && exists at :: OccursAt(i.title, fragments[k], at))
  {
    forall k | 0 <= k < |fragments| {
      ContainsOccurs(i.title, fragments[k]);
    }
  }
}
