/** The findings of a review: what a claim is about, what supports it, and how it was judged. */
module Findings {

  // Paths, other categories, fingerprints and words are only ever compared for equality.
  type Label = int

  datatype Severity = Blocker | Required | Suggestion | Nit | Question | Fyi | Praise {
    // Position in the severity order: a lower rank is a worse defect.
    function Rank(): (r: nat)
      ensures r < 7
    {
      match this
      case Blocker => 0
      case Required => 1
      case Suggestion => 2
      case Nit => 3
      case Question => 4
      case Fyi => 5
      case Praise => 6
    }
  }

  function Worse(a: Severity, b: Severity): Severity {
    if b.Rank() < a.Rank() then b else a
  }

  datatype Evidence = Evidence(file: Label, lineStart: int, lineEnd: int, note: Label)

  datatype Status = Proposed | Discarded | Downgraded | Verified | Suppressed | Published | Resolved

  predicate Live(s: Status) { !s.Discarded? && !s.Suppressed? && !s.Resolved? }

  // How code and the verifier judged a finding.
  datatype Outcome = Outcome(status: Status, verified: bool, introduced: bool, severityFinal: Severity)

  datatype Finding = Finding(
    fingerprint: Label,
    file: Label,
    category: Label,
    lineStart: int,
    lineEnd: int,
    words: set<Label>,
    severityProposed: Severity,
    evidence: seq<Evidence>,
    stages: set<Label>,
    outcome: Outcome)
}
