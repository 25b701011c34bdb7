/** The states of a review and the moves between them. */
module ReviewStates {

  datatype State =
    | Init | ContextCollection | StaticAnalysis | DefectReview | DocumentReview
    | PurposeReview | DesignReview | AnalysisFanOut | SystemContextReview
    | EvidenceValidation | FindingVerification | Finalization | Decision
    | Published | TerminatedEarly | FailedContext | FailedInternal | Cancelled | Superseded

  predicate Terminal(s: State) {
    s.Published? || s.TerminatedEarly? || s.FailedContext? || s.FailedInternal? || s.Cancelled? || s.Superseded?
  }

  // The ways any working review may end early.
  predicate Breakdown(s: State) { s.FailedInternal? || s.FailedContext? || s.Cancelled? || s.Superseded? }

  // A worker publishing its report can no longer be stopped.
  predicate Unstoppable(s: State) { s.Decision? }

  const STATES: set<State> := {
    Init, ContextCollection, StaticAnalysis, DefectReview, DocumentReview, PurposeReview, DesignReview,
    AnalysisFanOut, SystemContextReview, EvidenceValidation, FindingVerification, Finalization, Decision,
    Published, TerminatedEarly, FailedContext, FailedInternal, Cancelled, Superseded
  }

  const BREAKDOWNS: set<State> := {FailedInternal, FailedContext, Cancelled, Superseded}

  const ORDER: seq<State> := [
    Init, ContextCollection, StaticAnalysis, DefectReview, DocumentReview, PurposeReview, DesignReview,
    AnalysisFanOut, SystemContextReview, EvidenceValidation, FindingVerification, Finalization, Decision
  ]

  // Position in the forward order of the working states; terminal states come after all.
  function Rank(s: State): (r: nat)
    ensures if Terminal(s) then r == |ORDER| else r < |ORDER| && ORDER[r] == s
  {
    match s
    case Init => 0
    case ContextCollection => 1
    case StaticAnalysis => 2
    case DefectReview => 3
    case DocumentReview => 4
    case PurposeReview => 5
    case DesignReview => 6
    case AnalysisFanOut => 7
    case SystemContextReview => 8
    case EvidenceValidation => 9
    case FindingVerification => 10
    case Finalization => 11
    case Decision => 12
    case _ => 13
  }

  function Steps(s: State): set<State> {
    match s
    case Init => {ContextCollection, Finalization}
    case ContextCollection => {StaticAnalysis, DocumentReview}
    case StaticAnalysis => {DefectReview}
    case DefectReview => {EvidenceValidation}
    case DocumentReview => {EvidenceValidation}
    case PurposeReview => {EvidenceValidation}
    case DesignReview => {EvidenceValidation}
    case AnalysisFanOut => {EvidenceValidation}
    case SystemContextReview => {EvidenceValidation}
    case EvidenceValidation => {FindingVerification}
    case FindingVerification => {Finalization}
    case Finalization => {State.Decision}
    case Decision => {Published}
    case _ => {}
  }

  predicate ShortCircuit(s: State) {
    s.ContextCollection? || s.StaticAnalysis? || s.PurposeReview? || s.DesignReview?
  }

  predicate Legal(before: State, after: State) {
    !Terminal(before)
    && (after in Steps(before) || Breakdown(after) || (ShortCircuit(before) && after.Finalization?))
  }

  lemma EveryState(s: State)
    ensures s in STATES
  {
    match s
    case Init | ContextCollection | StaticAnalysis | DefectReview | DocumentReview => assert s in STATES;
    case PurposeReview | DesignReview | AnalysisFanOut | SystemContextReview => assert s in STATES;
    case EvidenceValidation | FindingVerification | Finalization | Decision => assert s in STATES;
    case Published | TerminatedEarly | FailedContext | FailedInternal | Cancelled | Superseded => assert s in STATES;
  }

  // Every working state may break down.
  method AddBreakdowns(steps: map<State, set<State>>) returns (legal: map<State, set<State>>)
    ensures legal.Keys == steps.Keys && forall s <- steps :: legal[s] == steps[s] + BREAKDOWNS
  {
    legal := steps;
    var rest := steps.Keys;
    while rest != {}
      invariant rest <= legal.Keys == steps.Keys
      invariant forall s <- steps :: legal[s] == if s in rest then steps[s] else steps[s] + BREAKDOWNS
      decreases |rest|
    {
      var s :| s in rest;
      legal := legal[s := legal[s] + BREAKDOWNS];
      rest := rest - {s};
    }
  }

  method AddFinalization(broken: map<State, set<State>>, stages: seq<State>) returns (legal: map<State, set<State>>)
    requires forall s <- stages :: s in broken
    ensures legal.Keys == broken.Keys
    ensures forall s <- broken :: legal[s] == broken[s] + if s in stages then {Finalization} else {}
  {
    legal := broken;
    for k := 0 to |stages|
      invariant legal.Keys == broken.Keys
      invariant forall s <- broken :: legal[s] == broken[s] + if s in stages[..k] then {Finalization} else {}
    {
      assert stages[..k + 1] == stages[..k] + [stages[k]];
      legal := legal[stages[k] := legal[stages[k]] + {Finalization}];
    }
    assert stages[..|stages|] == stages;
  }

  const SHORT_CIRCUITS: seq<State> := [ContextCollection, StaticAnalysis, PurposeReview, DesignReview]

  lemma LegalMoves(s: State, t: State)
    ensures Legal(s, t) <==>
            !Terminal(s) && t in Steps(s) + BREAKDOWNS + if s in SHORT_CIRCUITS then {Finalization} else {}
  {
  }

  // The table is built by extending the stepwise moves in two loops.
  method BuildTable() returns (legal: map<State, set<State>>)
    ensures forall s, t :: s in legal && t in legal[s] <==> Legal(s, t)
  {
    var steps := map s | s in STATES && !Terminal(s) :: Steps(s);
    forall s: State ensures s in steps <==> !Terminal(s) { EveryState(s); }
    var broken := AddBreakdowns(steps);
    legal := AddFinalization(broken, SHORT_CIRCUITS);
    forall s, t ensures s in legal && t in legal[s] <==> Legal(s, t) {
      LegalMoves(s, t);
    }
  }

  lemma LegalAdvances(s: State, t: State)
    requires Legal(s, t)
    ensures Rank(s) < Rank(t)
  {
  }

  predicate Path(history: seq<State>) {
    forall k | 0 <= k < |history| - 1 :: Legal(history[k], history[k + 1])
  }

  /** A legal history only moves forward, so no state is ever entered twice. */
  lemma {:induction false} PathsMoveForward(history: seq<State>, i: nat, j: nat)
    requires Path(history) && i < j < |history|
    ensures Rank(history[i]) < Rank(history[j])
  {
    LegalAdvances(history[j - 1], history[j]);
    if i < j - 1 {
      PathsMoveForward(history, i, j - 1);
    }
  }
}
