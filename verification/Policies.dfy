/** The severity policy: what category, verification and evidence make of a finding. */
module Policies {
  import opened Findings

  datatype Category =
    | Security | DataIntegrity | PromptInjection | Correctness | Concurrency | ErrorHandling | TestGap
    | Maintainability | Complexity | Naming | Style | Other(name: Label)

  function Base(c: Category): Severity {
    match c
    case Security | DataIntegrity | PromptInjection => Blocker
    case Correctness | Concurrency | ErrorHandling | TestGap => Required
    case Maintainability | Complexity => Suggestion
    case Naming | Style => Nit
    case Other(_) => Suggestion
  }

  // `onChange`: the claim lies in the diff or in a touched file; `byTool`: a tool already covers it.
  class Claim {
    const category: Category
    const local: bool
    const proposed: Severity
    const verified: bool
    const lowConfidence: bool
    const evidenceInvalid: bool
    const introduced: bool
    const onChange: bool
    const byTool: bool
    var status: Status
    var severityFinal: Severity

    constructor (category: Category, local: bool, proposed: Severity, verified: bool, lowConfidence: bool,
                 evidenceInvalid: bool, introduced: bool, onChange: bool, byTool: bool, status: Status, final: Severity)
    {
      this.category, this.local, this.proposed, this.verified := category, local, proposed, verified;
      this.lowConfidence, this.evidenceInvalid, this.introduced := lowConfidence, evidenceInvalid, introduced;
      this.onChange, this.byTool, this.status, this.severityFinal := onChange, byTool, status, final;
    }

    predicate Serious() { Base(category).Blocker? || Base(category).Required? }

    predicate NeedsVerification() { !local || Serious() || proposed.Blocker? || proposed.Required? }

    // A claim is required exactly when its category is, the verifier confirmed it, the
    // evidence and confidence hold, and the change introduced it; older code is information, a
    // nit stays one, and everything else is a suggestion. Nothing is ever a blocker.
    method Normalize()
      modifies this
      ensures !Live(old(status)) ==> status == old(status) && severityFinal == old(severityFinal)
      ensures Live(old(status)) ==> !severityFinal.Blocker?
      ensures Live(old(status)) ==>
                (severityFinal.Required? <==>
                 Base(category).Required? && verified && !lowConfidence && !evidenceInvalid && introduced)
      ensures Live(old(status)) ==>
                (Live(status) <==> (local || verified) && onChange && !byTool)
      ensures Live(status) ==> status == old(status)
      ensures Live(old(status)) ==> (severityFinal.Fyi? <==> !introduced && (local || verified))
      ensures Live(old(status)) ==>
                (severityFinal.Nit? <==> Base(category).Nit? && introduced && (local || verified))
      ensures Live(old(status)) ==>
                severityFinal.Required? || severityFinal.Suggestion? || severityFinal.Nit? || severityFinal.Fyi?
    {
      if !Live(status) {
        return;
      }
      if !local && !verified {
        status, severityFinal := Suppressed, Suggestion;
        return;
      }
      var severity := Base(category);
      if (NeedsVerification() && !verified) || lowConfidence || evidenceInvalid {
        if severity.Blocker? || severity.Required? {
          severity := Suggestion;
        }
      }
      if !introduced {
        severity := Fyi;
      }
      if byTool || !onChange {
        status := Suppressed;
      }
      if severity.Blocker? {
        severity := Suggestion;
      }
      severityFinal := severity;
    }
  }
}
