/** Severity triage by a model, and the decision and commit status it must not change. */
module Decisions {
  import opened Sequences
  import opened Findings
  import opened Dedup
  import opened Stages

  // ---- What the code decides from findings and checks -------------------------------------

  datatype Decision = CommentOnly | RequestChanges | Approve

  datatype Check = Check(required: bool, failed: bool)

  datatype Code = Failed | Success

  // A finding that asks for changes.
  predicate Blocks(f: Finding) {
    Live(f.outcome.status) && f.outcome.verified
    && (f.outcome.severityFinal.Blocker? || (f.outcome.severityFinal.Required? && f.outcome.introduced))
  }

  function Decide(partial: bool, complete: bool, findings: seq<Finding>, checks: seq<Check>): Decision {
    if partial || !complete then CommentOnly
    else if exists c <- checks :: c.required && c.failed then RequestChanges
    else if exists f <- findings :: Blocks(f) then RequestChanges
    else Approve
  }

  function Commit(decision: Decision, gating: bool, failed: bool): Code {
    if !failed && gating && decision.RequestChanges? then Failed else Success
  }

  // The run's own account of whether it covered everything.
  datatype Coverage = Coverage(
    stages: seq<Result>, model: bool, requirementsTruncated: bool, budgetExhausted: bool, scopesUnverified: bool,
      level: nat)

  predicate Partial(c: Coverage) {
    (exists r <- c.stages :: r.partial || r.failed) || !c.model || c.requirementsTruncated || c.budgetExhausted
    || c.scopesUnverified || c.level < 7
  }

  /** A commit fails exactly when the project gates, nothing about the run was partial, and a
      required check failed or a live verified finding is a blocker or a required change the
      merge request introduced. */
  lemma FailedCommits(c: Coverage, findings: seq<Finding>, checks: seq<Check>, gating: bool, broken: bool)
    ensures Commit(Decide(Partial(c), true, findings, checks), gating, broken) == Failed <==>
            gating && !broken && !Partial(c)
            && ((exists k <- checks :: k.required && k.failed) || (exists f <- findings :: Blocks(f)))
  {
  }

  /** So a failed commit means the stage's workers examined every planned unit. */
  lemma FailedCommitsExaminedEverything(
      units: seq<Unit>, workers: nat, steps: seq<Step>, c: Coverage, findings: seq<Finding>, checks: seq<Check>,
        gating: bool)
    requires CacheCovers(units) && Over(Run(Fresh(units), units, workers, steps), units)
    requires Merged(Run(Fresh(units), units, workers, steps).results, |units|) in c.stages
    requires Commit(Decide(Partial(c), true, findings, checks), gating, false) == Failed
    ensures Merged(Run(Fresh(units), units, workers, steps).results, |units|).examined == IdsOf(units, |units|)
  {
    FailedCommits(c, findings, checks, gating, false);
    CompleteStagesExaminedEverything(units, workers, steps);
  }

  // ---- Triage ----------------------------------------------------------------------------------

  const DEFECT_REVIEW: Label := 1
  const BUILD_AGENT: Label := 2
  const BATCH: nat := 20

  // All a model may say about a finding's severity.
  datatype Proposal = Keep | ToSuggestion | ToNit | ToFyi

  // `finding` numbers the candidates from one.
  datatype Judgement = Judgement(finding: int, proposal: Proposal)

  predicate Candidate(f: Finding) {
    (f.stages == {DEFECT_REVIEW} || f.stages == {BUILD_AGENT}) && Live(f.outcome.status)
    && (f.outcome.severityFinal.Required? || f.outcome.severityFinal.Suggestion?)
  }

  // Whether this finding can fail a gating check.
  predicate Gates(f: Finding, gating: bool) {
    gating && f.outcome.verified
    && (f.outcome.severityFinal.Blocker? || (f.outcome.severityFinal.Required? && f.outcome.introduced))
  }

  function Proposed(f: Finding, p: Proposal): Severity {
    match p
    case Keep => f.outcome.severityFinal
    case ToSuggestion => Suggestion
    case ToNit => Nit
    case ToFyi => Fyi
  }

  function Applied(f: Finding, p: Proposal, gating: bool): Finding {
    var lower := Proposed(f, p).Rank() > f.outcome.severityFinal.Rank();
    if lower && !Gates(f, gating) then f.(outcome := f.outcome.(severityFinal := Proposed(f, p))) else f
  }

  // Positions of the candidates.
  function Pending(findings: seq<Finding>, from: nat): (pending: seq<nat>)
    decreases |findings| - from
  {
    if from >= |findings| then []
    else (if Candidate(findings[from]) then [from] else []) + Pending(findings, from + 1)
  }

  // The judgement is about a candidate of the batch that starts at `start`.
  predicate Names(j: Judgement, pending: seq<nat>, start: nat, n: nat) {
    start < j.finding <= start + BATCH && j.finding <= |pending| && pending[j.finding - 1] < n
  }

  // One answer's judgements in turn; only the first about a candidate of the batch counts.
  function Judged(
      findings: seq<Finding>, pending: seq<nat>, start: nat, judgements: seq<Judgement>, seen: set<int>,
        gating: bool): seq<Finding>
    decreases judgements
  {
    if judgements == [] then findings
    else
      var j := judgements[0];
      if Names(j, pending, start, |findings|) && j.finding !in seen then
        var i := pending[j.finding - 1];
        Judged(findings[i := Applied(findings[i], j.proposal, gating)], pending, start, judgements[1..],
               seen + {j.finding}, gating)
      else Judged(findings, pending, start, judgements[1..], seen, gating)
  }

  // The batches in turn, until an answer fails to come.
  function JudgedAll(
      findings: seq<Finding>, pending: seq<nat>, start: nat, answers: seq<Option<seq<Judgement>>>,
        gating: bool): seq<Finding>
    decreases answers
  {
    if start >= |pending| || answers == [] || answers[0] == None then findings
    else
      var next := Judged(findings, pending, start, answers[0].value, {}, gating);
      JudgedAll(next, pending, start + BATCH, answers[1..], gating)
  }

  function Triaged(findings: seq<Finding>, answers: seq<Option<seq<Judgement>>>, gating: bool): seq<Finding> {
    JudgedAll(findings, Pending(findings, 0), 0, answers, gating)
  }

  method ApplyAll(
      findings: array<Finding>, pending: seq<nat>, start: nat, judgements: seq<Judgement>, gating: bool)
    modifies findings
    ensures findings[..] == Judged(old(findings[..]), pending, start, judgements, {}, gating)
  {
    var seen: set<int> := {};
    for k := 0 to |judgements|
      invariant Judged(findings[..], pending, start, judgements[k..], seen, gating)
             == Judged(old(findings[..]), pending, start, judgements, {}, gating)
    {
      var j := judgements[k];
      assert judgements[k..][0] == j && judgements[k..][1..] == judgements[k + 1..];
      if Names(j, pending, start, findings.Length) && j.finding !in seen {
        seen := seen + {j.finding};
        var i := pending[j.finding - 1];
        ghost var before := findings[..];
        findings[i] := Applied(findings[i], j.proposal, gating);
        assert findings[..] == before[i := Applied(before[i], j.proposal, gating)];
      }
    }
  }

  // Lower severities in place, batch by batch; a failed call leaves the rest as they are.
  method Triage(findings: array<Finding>, answers: seq<Option<seq<Judgement>>>, gating: bool)
    modifies findings
    ensures findings[..] == Triaged(old(findings[..]), answers, gating)
  {
    var pending := Pending(findings[..], 0);
    var start: nat, k: nat := 0, 0;
    while start < |pending| && k < |answers| && answers[k].Some?
      invariant k <= |answers|
      invariant JudgedAll(findings[..], pending, start, answers[k..], gating)
          == Triaged(old(findings[..]), answers, gating)
      decreases |answers| - k
    {
      assert answers[k..][0] == answers[k] && answers[k..][1..] == answers[k + 1..];
      ApplyAll(findings, pending, start, answers[k].value, gating);
      start, k := start + BATCH, k + 1;
    }
  }

  // ---- A model never raises a severity or changes the status --------------------------------------

  // `g` is `f`, perhaps with a lower severity, unless `f` could fail the check.
  predicate LowersOne(f: Finding, g: Finding, gating: bool) {
    g == f.(outcome := f.outcome.(severityFinal := g.outcome.severityFinal))
    && f.outcome.severityFinal.Rank() <= g.outcome.severityFinal.Rank() && (Gates(f, gating) ==> g == f)
  }

  predicate Lowers(fs: seq<Finding>, gs: seq<Finding>, gating: bool) {
    |fs| == |gs| && forall i | 0 <= i < |fs| :: LowersOne(fs[i], gs[i], gating)
  }

  lemma {:induction false} JudgedLowers(
      origin: seq<Finding>, findings: seq<Finding>, pending: seq<nat>, start: nat, judgements: seq<Judgement>,
        seen: set<int>, gating: bool)
    requires Lowers(origin, findings, gating)
    ensures Lowers(origin, Judged(findings, pending, start, judgements, seen, gating), gating)
    decreases judgements
  {
    if judgements != [] {
      var j := judgements[0];
      if Names(j, pending, start, |findings|) && j.finding !in seen {
        var i := pending[j.finding - 1];
        var next := findings[i := Applied(findings[i], j.proposal, gating)];
        assert LowersOne(origin[i], findings[i], gating) && LowersOne(origin[i], next[i], gating);
        JudgedLowers(origin, next, pending, start, judgements[1..], seen + {j.finding}, gating);
      } else {
        JudgedLowers(origin, findings, pending, start, judgements[1..], seen, gating);
      }
    }
  }

  lemma {:induction false} JudgedAllLowers(
      origin: seq<Finding>, findings: seq<Finding>, pending: seq<nat>, start: nat, answers: seq<Option<seq<Judgement>>>,
        gating: bool)
    requires Lowers(origin, findings, gating)
    ensures Lowers(origin, JudgedAll(findings, pending, start, answers, gating), gating)
    decreases answers
  {
    if start < |pending| && answers != [] && answers[0] != None {
      JudgedLowers(origin, findings, pending, start, answers[0].value, {}, gating);
      JudgedAllLowers(origin, Judged(findings, pending, start, answers[0].value, {}, gating), pending, start + BATCH,
                      answers[1..], gating);
    }
  }

  /** Whatever the model answers, triage only lowers severities, and touches no finding that
      could fail a gating check. */
  lemma TriageOnlyLowers(findings: seq<Finding>, answers: seq<Option<seq<Judgement>>>, gating: bool)
    ensures Lowers(findings, Triaged(findings, answers, gating), gating)
  {
    JudgedAllLowers(findings, findings, Pending(findings, 0), 0, answers, gating);
  }

  lemma CombinedLowers(x: Finding, y: Finding, f: Finding, g: Finding, gating: bool)
    requires LowersOne(x, y, gating) && LowersOne(f, g, gating)
    ensures LowersOne(Combined(x, f), Combined(y, g), gating)
  {
  }

  lemma FrontLowers(x: Finding, y: Finding, xs: seq<Finding>, ys: seq<Finding>, gating: bool)
    ensures LowersOne(x, y, gating) && Lowers(xs, ys, gating) ==> Lowers([x] + xs, [y] + ys, gating)
  {
  }

  // Deduplication does not look at final severities, so it keeps the same findings either way.
  lemma {:induction false} MergeLowers(rule: Rule, kept: seq<Finding>, lower: seq<Finding>, f: Finding, g: Finding,
      gating: bool)
    requires Lowers(kept, lower, gating) && LowersOne(f, g, gating)
    ensures Lowers(Merge(rule, kept, f), Merge(rule, lower, g), gating)
  {
    if kept != [] {
      assert LowersOne(kept[0], lower[0], gating);
      assert Same(rule, kept[0], f) == Same(rule, lower[0], g);
      if Same(rule, kept[0], f) {
        CombinedLowers(kept[0], lower[0], f, g, gating);
        FrontLowers(Combined(kept[0], f), Combined(lower[0], g), kept[1..], lower[1..], gating);
      } else {
        FrontLowers(kept[0], lower[0], Merge(rule, kept[1..], f), Merge(rule, lower[1..], g), gating);
        MergeLowers(rule, kept[1..], lower[1..], f, g, gating);
      }
    }
  }

  lemma {:induction false} MergeAllLowers(
      rule: Rule, kept: seq<Finding>, lower: seq<Finding>, fs: seq<Finding>, gs: seq<Finding>, gating: bool)
    requires Lowers(kept, lower, gating) && Lowers(fs, gs, gating)
    ensures Lowers(MergeAll(rule, kept, fs), MergeAll(rule, lower, gs), gating)
    decreases fs
  {
    if fs != [] {
      MergeLowers(rule, kept, lower, fs[0], gs[0], gating);
      MergeAllLowers(rule, Merge(rule, kept, fs[0]), Merge(rule, lower, gs[0]), fs[1..], gs[1..], gating);
    }
  }

  lemma DedupLowers(fs: seq<Finding>, gs: seq<Finding>, distance: int, gating: bool)
    requires Lowers(fs, gs, gating)
    ensures Lowers(Deduplicated(fs, distance), Deduplicated(gs, distance), gating)
  {
    MergeAllLowers(SameFingerprint, [], [], fs, gs, gating);
    MergeAllLowers(Nearby(distance), [], [], MergeAll(SameFingerprint, [], fs), MergeAll(SameFingerprint, [], gs),
      gating);
  }

  lemma LoweringKeepsBlocks(fs: seq<Finding>, gs: seq<Finding>)
    requires Lowers(fs, gs, true)
    ensures (exists f <- fs :: Blocks(f)) <==> (exists g <- gs :: Blocks(g))
  {
    forall i | 0 <= i < |fs| ensures Blocks(fs[i]) <==> Blocks(gs[i]) {
      assert LowersOne(fs[i], gs[i], true);
    }
    if exists f <- fs :: Blocks(f) {
      var i :| 0 <= i < |fs| && Blocks(fs[i]);
      assert gs[i] in gs && Blocks(gs[i]);
    }
    if exists g <- gs :: Blocks(g) {
      var i :| 0 <= i < |gs| && Blocks(gs[i]);
      assert fs[i] in fs && Blocks(fs[i]);
    }
  }

  // Findings given the fingerprints their threads were published under.
  function Adopted(findings: seq<Finding>, fingerprints: seq<Label>): (r: seq<Finding>)
    requires |fingerprints| == |findings|
    ensures |r| == |findings| && forall i | 0 <= i < |r| :: r[i] == findings[i].(fingerprint := fingerprints[i])
  {
    seq(|findings|, i requires 0 <= i < |findings| => findings[i].(fingerprint := fingerprints[i]))
  }

  // The commit status of a run: secrets and carried findings first, then the fresh ones.
  function RunStatus(
      partial: bool, others: seq<Finding>, recent: seq<Finding>, fingerprints: seq<Label>, distance: int,
        checks: seq<Check>, gating: bool): Code
    requires |fingerprints| == |recent|
  {
    Commit(Decide(partial, true, Deduplicated(others + Adopted(recent, fingerprints), distance), checks), gating, false)
  }

  /** In every enforcement mode, and for every answer a model could give, the commit status
      is what it would have been without the model. */
  lemma TriageKeepsTheStatus(
      partial: bool, others: seq<Finding>, recent: seq<Finding>, answers: seq<Option<seq<Judgement>>>,
      fingerprints: seq<Label>, distance: int, checks: seq<Check>, gating: bool)
    requires |fingerprints| == |recent|
    ensures |Triaged(recent, answers, gating)| == |recent|
    ensures RunStatus(partial, others, Triaged(recent, answers, gating), fingerprints, distance, checks, gating)
         == RunStatus(partial, others, recent, fingerprints, distance, checks, gating)
  {
    var lower := Triaged(recent, answers, gating);
    TriageOnlyLowers(recent, answers, gating);
    if gating {
      var fs, gs := others + Adopted(recent, fingerprints), others + Adopted(lower, fingerprints);
      forall i | 0 <= i < |fs| ensures LowersOne(fs[i], gs[i], true) {
        if i >= |others| {
          assert LowersOne(recent[i - |others|], lower[i - |others|], true);
        }
      }
      DedupLowers(fs, gs, distance, true);
      LoweringKeepsBlocks(Deduplicated(fs, distance), Deduplicated(gs, distance));
    }
  }
}
