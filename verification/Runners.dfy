/** The runners' advances through the states, under stops, cancellations, supersession and recovery. */
module Runners {
  import opened Sequences
  import opened ReviewStates
  import opened Reviews
  import opened ReviewStore

  // The states each runner advances to, in the order of its calls; PUBLISHED comes last.
  const FULL: seq<State> :=
    [ContextCollection, StaticAnalysis, DefectReview, EvidenceValidation, FindingVerification, Finalization,
      State.Decision]
  const BASIC: seq<State> := [ContextCollection, StaticAnalysis, Finalization, State.Decision]
  const DOCUMENT: seq<State> :=
    [ContextCollection, DocumentReview, EvidenceValidation, FindingVerification, Finalization, State.Decision]

  // Milestones from the fifth run the analysis stages; documents have a plan of their own.
  function PlanFor(document: bool, level: nat): seq<State> {
    if document then DOCUMENT else if level >= 5 then FULL else BASIC
  }

  datatype Step =
    | Read            // an advance reads the row
    | Write           // and, in a later transaction, moves it
    | Finish          // the report is out
    | Fail(state: State)
    | Restart         // the worker died and the review is recovered
    | Disturb(state: State)  // another transaction ended the review meanwhile

  // The runner is about to perform, or (`mid`) halfway through, advance `pc` of its plan.
  // `refused` records that some attempted transition was illegal.
  datatype Runner = Runner(state: State, pc: nat, mid: bool, refused: bool)

  function Attempt(r: Runner, t: State): Runner {
    if Terminal(r.state) then r else if Legal(r.state, t) then r.(state := t) else r.(refused := true)
  }

  function Act(r: Runner, plan: seq<State>, step: Step): Runner {
    match step
    case Read =>
      if r.mid || r.pc >= |plan| || Terminal(r.state) then r
      else if Rank(r.state) < Rank(plan[r.pc]) then r.(mid := true)
      else r.(pc := r.pc + 1)
    case Write =>
      if r.mid && r.pc < |plan| then Attempt(r, plan[r.pc]).(mid := false, pc := r.pc + 1) else r
    case Finish => if !r.mid && r.pc == |plan| then Attempt(r, Published) else r
    case Fail(t) => if Breakdown(t) then Attempt(r, t) else r
    case Restart => r.(pc := 0, mid := false)
    case Disturb(t) => if !Terminal(r.state) && (t.Cancelled? || t.Superseded?) then r.(state := t) else r
  }

  function ActAll(r: Runner, plan: seq<State>, steps: seq<Step>): Runner
    decreases steps
  {
    if steps == [] then r else ActAll(Act(r, plan, steps[0]), plan, steps[1..])
  }

  // ---- Which states a plan can take up ---------------------------------------------------

  // The first planned state ahead of `s`; after all of them the report is published.
  function Ahead(plan: seq<State>, s: State): State {
    if plan == [] then Published else if Rank(s) < Rank(plan[0]) then plan[0] else Ahead(plan[1..], s)
  }

  predicate Recoverable(plan: seq<State>, s: State) { Legal(s, Ahead(plan, s)) }

  function After(plan: seq<State>, k: nat): State {
    if k + 1 < |plan| then plan[k + 1] else Published
  }

  // Each planned state legally follows the one before it, and the last may publish.
  predicate Chain(plan: seq<State>) {
    forall k | 0 <= k < |plan| :: Legal(plan[k], After(plan, k))
  }

  lemma PlansAreChains()
    ensures Chain(FULL) && Chain(BASIC) && Chain(DOCUMENT)
  {
    FullIsChain();
    BasicIsChain();
    DocumentIsChain();
  }

  lemma FullIsChain()
    ensures Chain(FULL)
  {
    assert forall k | 0 <= k < 7 :: Legal(FULL[k], After(FULL, k));
  }

  lemma BasicIsChain()
    ensures Chain(BASIC)
  {
    assert forall k | 0 <= k < 4 :: Legal(BASIC[k], After(BASIC, k));
  }

  lemma DocumentIsChain()
    ensures Chain(DOCUMENT)
  {
    assert forall k | 0 <= k < 6 :: Legal(DOCUMENT[k], After(DOCUMENT, k));
  }

  lemma {:induction false} AheadIs(plan: seq<State>, s: State, pc: nat)
    requires pc <= |plan| && (forall j | 0 <= j < pc :: Rank(plan[j]) <= Rank(s))
    requires pc < |plan| ==> Rank(s) < Rank(plan[pc])
    ensures Ahead(plan, s) == if pc < |plan| then plan[pc] else Published
  {
    if pc > 0 {
      AheadIs(plan[1..], s, pc - 1);
    }
  }

  lemma PlannedAreRecoverable(plan: seq<State>, k: nat)
    requires Chain(plan) && k < |plan|
    ensures Recoverable(plan, plan[k])
  {
    assert Path(plan) by {
      forall j | 0 <= j < |plan| - 1 ensures Legal(plan[j], plan[j + 1]) {
        assert Legal(plan[j], After(plan, j));
      }
    }
    forall j | 0 <= j < k ensures Rank(plan[j]) < Rank(plan[k]) {
      PathsMoveForward(plan, j, k);
    }
    if k + 1 < |plan| {
      PathsMoveForward(plan, k, k + 1);
    }
    AheadIs(plan, plan[k], k + 1);
    assert Ahead(plan, plan[k]) == After(plan, k);
  }

  // ---- Every attempted transition is legal --------------------------------------------------

  // Everything planned before `pc` lies behind the state.
  predicate Passed(plan: seq<State>, pc: nat, s: State) {
    pc <= |plan| && forall j | 0 <= j < pc :: Rank(plan[j]) <= Rank(s)
  }

  // Where a runner can be: its state is one it can take up, and it has passed what lies behind.
  predicate Within(r: Runner, plan: seq<State>) {
    !r.refused && r.pc <= |plan| && (r.mid ==> r.pc < |plan|)
    && (Terminal(r.state)
        || (Recoverable(plan, r.state) && Passed(plan, r.pc, r.state)
            && (r.mid ==> Rank(r.state) < Rank(plan[r.pc]))))
  }

  lemma ActStaysWithin(r: Runner, plan: seq<State>, step: Step)
    requires Chain(plan) && Within(r, plan)
    ensures Within(Act(r, plan, step), plan)
    ensures var s := Act(r, plan, step).state; s == r.state || (Rank(r.state) < Rank(s) && Legal(r.state, s))
  {
    if step.Write? && !Terminal(r.state) {
      WriteStaysWithin(r, plan);
    } else if step.Finish? && !Terminal(r.state) {
      FinishStaysWithin(r, plan);
    } else {
      OtherStaysWithin(r, plan, step);
    }
    if Legal(r.state, Act(r, plan, step).state) {
      LegalAdvances(r.state, Act(r, plan, step).state);
    }
  }

  lemma OtherStaysWithin(r: Runner, plan: seq<State>, step: Step)
    requires Within(r, plan) && (Terminal(r.state) || (!step.Write? && !step.Finish?))
    ensures Within(Act(r, plan, step), plan)
    ensures var s := Act(r, plan, step).state; s == r.state || Legal(r.state, s)
  {
  }

  lemma WriteStaysWithin(r: Runner, plan: seq<State>)
    requires Chain(plan) && Within(r, plan) && !Terminal(r.state)
    ensures Within(Act(r, plan, Write), plan)
    ensures var s := Act(r, plan, Write).state; s == r.state || Legal(r.state, s)
  {
    if r.mid {
      AheadIs(plan, r.state, r.pc);
      assert Act(r, plan, Write) == r.(state := plan[r.pc], mid := false, pc := r.pc + 1);
      MovedIsWithin(r, plan);
    }
  }

  lemma MovedIsWithin(r: Runner, plan: seq<State>)
    requires Chain(plan) && Within(r, plan) && !Terminal(r.state) && r.mid
    ensures Within(r.(state := plan[r.pc], mid := false, pc := r.pc + 1), plan)
  {
    PlannedAreRecoverable(plan, r.pc);
    PassedGrows(plan, r.pc, r.state);
  }

  lemma PassedGrows(plan: seq<State>, pc: nat, s: State)
    requires pc < |plan| && Passed(plan, pc, s) && Rank(s) < Rank(plan[pc])
    ensures Passed(plan, pc + 1, plan[pc])
  {
  }

  lemma FinishStaysWithin(r: Runner, plan: seq<State>)
    requires Chain(plan) && Within(r, plan) && !Terminal(r.state)
    ensures Within(Act(r, plan, Finish), plan)
    ensures var s := Act(r, plan, Finish).state; s == r.state || Legal(r.state, s)
  {
    if r.pc == |plan| {
      AheadIs(plan, r.state, r.pc);
    }
  }

  /** From any state a plan can take up, however often the worker dies and the review is
      recovered, and whatever stops, cancellations and supersessions come in between, no
      transition the runner attempts is ever illegal, and the state only moves forward. */
  lemma {:induction false} EveryAttemptIsLegal(r: Runner, plan: seq<State>, steps: seq<Step>)
    requires Chain(plan) && Within(r, plan)
    ensures !ActAll(r, plan, steps).refused
    ensures ActAll(r, plan, steps).state == r.state || Rank(r.state) < Rank(ActAll(r, plan, steps).state)
    decreases steps
  {
    if steps != [] {
      ActStaysWithin(r, plan, steps[0]);
      EveryAttemptIsLegal(Act(r, plan, steps[0]), plan, steps[1..]);
    }
  }

  // The states a review may be found in after runs at this plan, before any other plan.
  predicate LeftBy(plan: seq<State>, s: State) { s == Init || s in plan }

  predicate Legacy(s: State) {
    s.PurposeReview? || s.DesignReview? || s.AnalysisFanOut? || s.SystemContextReview?
  }

  /** What each plan can take up, exactly: a full run every working state; a basic run all but
      those that only full or document runs and two legacy stages leave; a document run all
      but the two code stages. */
  lemma RecoverableStates(s: State)
    requires !Terminal(s)
    ensures Recoverable(FULL, s)
    ensures Recoverable(BASIC, s) <==>
            !s.DefectReview? && !s.DocumentReview? && !s.AnalysisFanOut? && !s.SystemContextReview?
              && !s.EvidenceValidation?
    ensures Recoverable(DOCUMENT, s) <==> !s.StaticAnalysis? && !s.DefectReview?
  {
    BasicAhead(s);
    FullAhead(s);
    DocumentAhead(s);
  }

  lemma BasicAhead(s: State)
    ensures Ahead(BASIC, s) == if Rank(s) < 1 then ContextCollection else if Rank(s) < 2 then StaticAnalysis
                               else if Rank(s) < 11 then Finalization
                               else if Rank(s) < 12 then State.Decision else Published
  {
    AheadIs(BASIC, s, if Rank(s) < 2 then Rank(s) else if Rank(s) < 11 then 2 else if Rank(s) < 12 then 3 else 4);
  }

  lemma FullRanks()
    ensures forall k | 0 <= k < 7 :: Rank(FULL[k]) == if k < 3 then k + 1 else k + 6
  {
  }

  lemma FullAhead(s: State)
    ensures Ahead(FULL, s) == if Rank(s) < 1 then ContextCollection else if Rank(s) < 2 then StaticAnalysis
                              else if Rank(s) < 3 then DefectReview else if Rank(s) < 9 then EvidenceValidation
                              else if Rank(s) < 10 then FindingVerification else if Rank(s) < 11 then Finalization
                              else if Rank(s) < 12 then State.Decision else Published
  {
    FullRanks();
    AheadIs(FULL, s, if Rank(s) < 3 then Rank(s) else if Rank(s) < 9 then 3 else if Rank(s) < 13 then Rank(s) - 5
      else 7);
  }

  lemma DocumentAhead(s: State)
    ensures Ahead(DOCUMENT, s) == if Rank(s) < 1 then ContextCollection else if Rank(s) < 4 then DocumentReview
                                  else if Rank(s) < 9 then EvidenceValidation
                                  else if Rank(s) < 10 then FindingVerification else if Rank(s) < 11 then Finalization
                                  else if Rank(s) < 12 then State.Decision else Published
  {
    DocumentRanks();
    AheadIs(DOCUMENT, s, if Rank(s) < 1 then 0 else if Rank(s) < 4 then 1 else if Rank(s) < 9 then 2
                         else if Rank(s) < 13 then Rank(s) - 6 else 6);
  }

  lemma DocumentRanks()
    ensures forall k | 0 <= k < 6 :: Rank(DOCUMENT[k]) == if k == 0 then 1 else if k == 1 then 4 else k + 7
  {
  }

  /** At a fixed plan every state its own runs can leave is one it can take up. */
  lemma OwnStatesAreRecoverable(plan: seq<State>, s: State)
    requires plan == FULL || plan == BASIC || plan == DOCUMENT
    requires LeftBy(plan, s) || (plan == FULL && Legacy(s))
    ensures Chain(plan) && Recoverable(plan, s)
  {
    PlansAreChains();
    if LeftBy(plan, s) && s != Init {
      var k :| 0 <= k < |plan| && plan[k] == s;
      PlannedAreRecoverable(plan, k);
    } else {
      RecoverableStates(s);
    }
  }

  /** At a fixed milestone, or for documents: from the start, from any state such a run left
      behind, and for full runs from the legacy states too, no run ever attempts an illegal
      transition, whatever dies, stops, cancels, supersedes or recovers it on the way. */
  lemma RunsAtOneLevelAreNeverRefused(document: bool, level: nat, s: State, steps: seq<Step>)
    requires LeftBy(PlanFor(document, level), s) || (!document && level >= 5 && Legacy(s))
    ensures var plan := PlanFor(document, level);
            var r := ActAll(Runner(s, 0, false, false), plan, steps);
            !r.refused && (r.state == s || Rank(s) < Rank(r.state))
            && (Terminal(r.state) || LeftBy(plan, r.state) || (!document && level >= 5 && Legacy(r.state)))
  {
    var plan := PlanFor(document, level);
    OwnStatesAreRecoverable(plan, s);
    EveryAttemptIsLegal(Runner(s, 0, false, false), plan, steps);
    StatesStayPlanned(Runner(s, 0, false, false), plan, steps);
  }

  lemma {:induction false} StatesStayPlanned(r: Runner, plan: seq<State>, steps: seq<Step>)
    ensures var s := ActAll(r, plan, steps).state; s == r.state || Terminal(s) || s in plan
    decreases steps
  {
    if steps != [] {
      var next := Act(r, plan, steps[0]);
      assert next.state == r.state || Terminal(next.state) || next.state in plan;
      StatesStayPlanned(next, plan, steps[1..]);
    }
  }

  /** A state the plan cannot take up makes an undisturbed run attempt an illegal transition. */
  lemma UnrecoverableRunsAreRefused(plan: seq<State>, s: State) returns (steps: seq<Step>)
    requires !Terminal(s) && !Recoverable(plan, s)
    ensures ActAll(Runner(s, 0, false, false), plan, steps).refused
  {
    steps := RefusedFrom(plan, s, 0);
  }

  lemma {:induction false} RefusedFrom(plan: seq<State>, s: State, pc: nat) returns (steps: seq<Step>)
    requires !Terminal(s) && !Recoverable(plan, s) && pc <= |plan|
    requires forall j | 0 <= j < pc :: Rank(plan[j]) <= Rank(s)
    ensures ActAll(Runner(s, pc, false, false), plan, steps).refused
    decreases |plan| - pc
  {
    var r := Runner(s, pc, false, false);
    if pc == |plan| {
      AheadIs(plan, s, pc);
      steps := [Finish];
      assert ActAll(r, plan, steps) == ActAll(Act(r, plan, Finish), plan, steps[1..]);
    } else if Rank(s) < Rank(plan[pc]) {
      AheadIs(plan, s, pc);
      steps := [Read, Write];
      assert steps[1..] == [Write] && [Write][1..] == [];
      assert ActAll(r, plan, steps) == ActAll(r.(mid := true), plan, [Write]);
      assert ActAll(r.(mid := true), plan, [Write]) == ActAll(Act(r.(mid := true), plan, Write), plan, []);
    } else {
      var rest := RefusedFrom(plan, s, pc + 1);
      steps := [Read] + rest;
      assert steps[1..] == rest;
    }
  }

  // ---- The runner against the store -------------------------------------------------------------

  datatype Progress = Advanced | Stale | Illegal

  ghost predicate OnlyChanges(before: seq<Review>, after: seq<Review>, id: nat) {
    |before| == |after| && forall i | 0 <= i < |before| && i != id :: after[i] == before[i]
  }

  method Advance(store: Store, id: nat, target: State) returns (p: Progress)
    requires Consistent(store.reviews) && id < |store.reviews|
    modifies store`reviews
    ensures var s := old(store.reviews[id].state);
            store.State() == (if Rank(s) < Rank(target) then Next(old(store.State()), Op.Move(id, target))
              else old(store.State()))
            && p == if Terminal(s) then Stale
                    else if Rank(s) < Rank(target) && !Legal(s, target) then Illegal
                    else Advanced
    ensures Consistent(store.reviews) && OnlyChanges(old(store.reviews), store.reviews, id)
    ensures var s := old(store.reviews[id].state);
            store.reviews[id].state == if p == Advanced && Rank(s) < Rank(target) then target else s
  {
    NextFollows(store.State(), Op.Move(id, target));
    var s := store.reviews[id].state;
    if Terminal(s) {
      assert store.reviews[id := store.reviews[id]] == store.reviews;
      return Stale;
    }
    if Rank(s) < Rank(target) {
      var refused := store.Transition(id, target);
      return if refused then Illegal else Advanced;
    }
    return Advanced;
  }

  // A plan can take up the state before an advance exactly if it can the state after it.
  lemma AdvanceKeepsRecoverable(plan: seq<State>, s: State, pc: nat)
    requires Chain(plan) && pc < |plan| && forall j | 0 <= j < pc :: Rank(plan[j]) <= Rank(s)
    ensures Rank(s) < Rank(plan[pc]) ==> (Recoverable(plan, s) <==> Legal(s, plan[pc]))
    ensures Recoverable(plan, plan[pc])
  {
    PlannedAreRecoverable(plan, pc);
    if Rank(s) < Rank(plan[pc]) {
      AheadIs(plan, s, pc);
    }
  }

  // Past the advance the plan is one further on, or the plan could not take the state up.
  lemma AdvancePasses(plan: seq<State>, s: State, pc: nat)
    requires Chain(plan) && pc < |plan| && Passed(plan, pc, s)
    ensures var later := if Rank(s) < Rank(plan[pc]) then plan[pc] else s;
            if Rank(s) < Rank(plan[pc]) && !Legal(s, plan[pc]) then !Recoverable(plan, s)
            else Passed(plan, pc + 1, later) && (Recoverable(plan, later) <==> Recoverable(plan, s))
  {
    AdvanceKeepsRecoverable(plan, s, pc);
  }

  method AdvanceTo(store: Store, id: nat, plan: seq<State>, pc: nat) returns (ok: bool)
    requires Consistent(store.reviews) && id < |store.reviews| && Active(store.reviews[id]) && Chain(plan)
    requires pc < |plan| && Passed(plan, pc, store.reviews[id].state)
    modifies store`reviews
    ensures Consistent(store.reviews) && OnlyChanges(old(store.reviews), store.reviews, id)
    ensures ok ==> Active(store.reviews[id]) && Passed(plan, pc + 1, store.reviews[id].state)
    ensures ok ==> (Recoverable(plan, store.reviews[id].state) <==> Recoverable(plan, old(store.reviews[id].state)))
    ensures !ok ==> !Recoverable(plan, old(store.reviews[id].state))
  {
    AdvancePasses(plan, store.reviews[id].state, pc);
    var p := Advance(store, id, plan[pc]);
    ok := p != Illegal;
  }

  // An undisturbed run publishes exactly when the plan can take up the review's state.
  method Execute(store: Store, id: nat, plan: seq<State>) returns (published: bool)
    requires Consistent(store.reviews) && id < |store.reviews| && Active(store.reviews[id]) && Chain(plan)
    modifies store`reviews
    ensures Consistent(store.reviews) && OnlyChanges(old(store.reviews), store.reviews, id)
    ensures published <==> Recoverable(plan, old(store.reviews[id].state))
    ensures published ==> store.reviews[id].state == Published
  {
    ghost var before := store.reviews;
    ghost var first := store.reviews[id].state;
    for pc := 0 to |plan|
      invariant Consistent(store.reviews) && OnlyChanges(before, store.reviews, id)
      invariant Active(store.reviews[id]) && Passed(plan, pc, store.reviews[id].state)
      invariant Recoverable(plan, store.reviews[id].state) <==> Recoverable(plan, first)
    {
      var ok := AdvanceTo(store, id, plan, pc);
      if !ok {
        return false;
      }
    }
    AheadIs(plan, store.reviews[id].state, |plan|);
    var p := Advance(store, id, Published);
    return p == Advanced;
  }

  // ---- The infrastructure-check runner ------------------------------------------------------------

  // The one move of a turn, from the state it read.
  function MachineMove(s: State, headMoved: bool, closed: bool): State {
    if headMoved then Superseded
    else if closed then Cancelled
    else
      match s
      case Init => Finalization
      case Finalization => State.Decision
      case Decision => Published
      case _ => FailedInternal
  }

  /** Every move of the infrastructure-check runner is legal for the state it read, and for
      whatever the row holds if other transactions ended the review in the meantime. */
  lemma MachineMovesAreLegal(s: State, now: State, headMoved: bool, closed: bool)
    requires !Terminal(s) && (now == s || Terminal(now))
    ensures Terminal(now) || Legal(now, MachineMove(s, headMoved, closed))
    ensures Rank(s) < Rank(MachineMove(s, headMoved, closed))
  {
  }
}
