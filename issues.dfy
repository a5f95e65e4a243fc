/** An issue as the tracker's list-issues endpoint returns it, reduced to the fields the
    progress script reads, and the predicates the script applies to it. */
module Issues {

  datatype State = Open | Closed

  /** `labels` holds the label names; `isPullRequest` is the presence of the pull-request
      marker; `closedAt` is the closing time in whole seconds since the epoch (read only for
      closed issues). */
  datatype Issue = Issue(
    title: string,
    state: State,
    labels: seq<string>,
    isPullRequest: bool,
    closedAt: int)

  const InProgressLabel: string := "in-progress"
  const BlockedLabel: string := "blocked"

  /** Some label of `i` is named exactly `name` (case-sensitive). */
  predicate HasLabel(i: Issue, name: string) {
    exists k | 0 <= k < |i.labels| :: i.labels[k] == name
  }

  /** A task is an issue without the pull-request marker. */
  predicate IsTask(i: Issue) {
    !i.isPullRequest
  }

  predicate IsPullRequest(i: Issue) {
    i.isPullRequest
  }

  predicate IsClosed(i: Issue) {
    i.state == Closed
  }

  predicate IsCompletedTask(i: Issue) {
    i.state == Closed && !i.isPullRequest
  }

  /** An open issue carrying label `name`; pull requests are not excluded. */
  predicate IsOpenWithLabel(i: Issue, name: string) {
    i.state == Open && HasLabel(i, name)
  }

  /** Case-sensitive substring test, `sub in s` on Python strings. */
  predicate Contains(s: string, sub: string) {
    sub <= s || (|s| > 0 && Contains(s[1..], sub))
  }

  /** `sub` occurs in `s` starting at position `k`. */
  predicate OccursAt(s: string, sub: string, k: int) {
    0 <= k <= |s| - |sub| && s[k..k + |sub|] == sub
  }

  /** `Contains` finds `sub` exactly when it occurs at some position of `s`. */
  lemma {:induction false} ContainsOccurs(s: string, sub: string)
    ensures Contains(s, sub) <==> exists k :: OccursAt(s, sub, k)
  {
    if sub <= s {
      assert OccursAt(s, sub, 0);
    } else if |s| > 0 {
      ContainsOccurs(s[1..], sub);
      if exists k :: OccursAt(s, sub, k) {
        var k :| OccursAt(s, sub, k);
        assert OccursAt(s[1..], sub, k - 1);
      }
      if Contains(s[1..], sub) {
        var k :| OccursAt(s[1..], sub, k);
        assert OccursAt(s, sub, k + 1);
      }
    }
  }

  /** The empty pattern occurs in every title, and no pattern longer than the title does. */
  lemma {:induction false} ContainsLength(s: string, sub: string)
    ensures sub == [] ==> Contains(s, sub)
    ensures |sub| > |s| ==> !Contains(s, sub)
  {
    if |s| > 0 && |sub| > |s| {
      ContainsLength(s[1..], sub);
    }
  }
}
