/** The unit workers of a stage: shared plan, progress counters, coverage and the merged result. */
module Stages {
  import opened Sequences
  import opened Findings

  // One answer about a unit; `findings` are those with a failure scenario.
  datatype Envelope = Envelope(findings: seq<Finding>, truncated: bool, examined: bool, skipped: bool)

  // How one attempt ends. A timeout leaves the answers of earlier context rounds behind.
  datatype Attempt = Answered(e: Envelope) | OutOfBudget | TimedOut(observed: seq<Envelope>) | Broke

  datatype Result = Result(
    findings: seq<Finding>, examined: seq<Label>, skipped: seq<Label>, failed: bool, partial: bool, attempts: nat)

  // A planned unit; `cached` is the result an earlier run of the stage saved for it.
  datatype Unit = Unit(id: Label, omitted: bool, selected: bool, cached: Option<Result>)

  const NOTHING := Result([], [], [], false, false, 0)

  // ---- One unit -----------------------------------------------------------------------

  function Kept(r: Result, e: Envelope): Result {
    r.(findings := r.findings + e.findings, partial := r.partial || e.truncated)
  }

  function LastExamined(observed: seq<Envelope>): Option<Envelope> {
    if observed == [] then None
    else
      var last := observed[|observed| - 1];
      if last.examined && !last.skipped then Some(last) else LastExamined(observed[..|observed| - 1])
  }

  // The attempts at a unit in turn: a covering answer, an explicit skip or an error ends them.
  function Tried(r: Result, id: Label, attempts: seq<Attempt>): Result
    decreases attempts
  {
    if attempts == [] then r
    else
      var started := r.(attempts := r.attempts + 1);
      match attempts[0]
      case Answered(e) =>
        if e.examined && !e.skipped then Kept(started, e).(examined := r.examined + [id])
        else if e.skipped then Kept(started, e)
        else Tried(Kept(started, e), id, attempts[1..])
      case OutOfBudget => started
      case TimedOut(observed) =>
        (match LastExamined(observed)
         case Some(e) => Kept(started, e).(examined := r.examined + [id])
         case None => started)
      case Broke => started.(failed := true)
  }

  predicate Exhausts(attempts: seq<Attempt>)
    decreases attempts
  {
    attempts != []
    && (attempts[0].OutOfBudget?
        || (attempts[0].Answered? && !attempts[0].e.examined && !attempts[0].e.skipped && Exhausts(attempts[1..])))
  }

  function Skipped(r: Result, id: Label): Result { r.(skipped := r.skipped + [id], partial := true) }

  function Settled(r: Result, id: Label): Result { if r.examined == [] then Skipped(r, id) else r }

  // A unit ends examined or skipped, never both, and a skip makes its result partial.
  predicate Covered(r: Result, id: Label) {
    (r.examined == [id] && r.skipped == []) || (r.examined == [] && r.skipped == [id] && r.partial)
  }

  lemma {:induction false} TriedCovers(r: Result, id: Label, attempts: seq<Attempt>)
    requires r.examined == [] && r.skipped == []
    ensures Covered(Settled(Tried(r, id, attempts), id), id)
    decreases attempts
  {
    if attempts != [] {
      var started := r.(attempts := r.attempts + 1);
      match attempts[0]
      case Answered(e) =>
        if !e.examined && !e.skipped {
          TriedCovers(Kept(started, e), id, attempts[1..]);
        }
      case _ =>
    }
  }

  // ---- The pool of workers --------------------------------------------------------------

  datatype Progress = Progress(total: int, completed: int, running: int, idle: int, stopped: int)

  // `next` is the shared iterator. Workers hold the units in `working` until their attempts
  // end, then the units in `reporting` until the observer has been told.
  datatype Pool = Pool(
    next: nat,
    working: set<nat>,
    reporting: set<nat>,
    results: map<nat, Result>,
    exhausted: bool,
    progress: Progress,
    notified: seq<nat>)

  function Fresh(units: seq<Unit>): Pool {
    Pool(0, {}, {}, map[], false, Progress(|units|, 0, 0, |units|, 0), [])
  }

  datatype Step =
    | Take(late: bool)                                     // a free worker takes the next unit
    | Settle(index: nat, first: Attempt, second: Attempt)  // the attempts at a unit end
    | Notify(index: nat)                                   // its result is saved and announced

  // The unit leaves the counters it is in and counts as completed or stopped.
  function Ended(p: Progress, r: Result): Progress {
    if r.examined != [] then p.(completed := p.completed + 1) else p.(stopped := p.stopped + 1)
  }

  // A taken unit whose result is known at once, and one handed to a worker.
  function EndedAt(p: Pool, r: Result): Pool {
    p.(next := p.next + 1, reporting := p.reporting + {p.next}, results := p.results[p.next := r],
       progress := Ended(p.progress.(idle := p.progress.idle - 1), r))
  }

  function StartedAt(p: Pool): Pool {
    p.(next := p.next + 1, working := p.working + {p.next}, results := p.results[p.next := NOTHING],
       progress := p.progress.(idle := p.progress.idle - 1, running := p.progress.running + 1))
  }

  function TakeNext(p: Pool, unit: Unit, late: bool): Pool {
    if unit.cached.Some? then EndedAt(p, unit.cached.value)
    else if p.exhausted || unit.omitted || !unit.selected || late then EndedAt(p, Skipped(NOTHING, unit.id))
    else StartedAt(p)
  }

  function SettleUnit(p: Pool, unit: Unit, i: nat, attempts: seq<Attempt>): Pool {
    var r := Settled(Tried(NOTHING, unit.id, attempts), unit.id);
    p.(working := p.working - {i}, reporting := p.reporting + {i}, results := p.results[i := r],
       exhausted := p.exhausted || Exhausts(attempts),
       progress := Ended(p.progress.(running := p.progress.running - 1), r))
  }

  // Steps that no worker can take change nothing.
  function Next(p: Pool, units: seq<Unit>, workers: nat, step: Step): Pool {
    match step
    case Take(late) =>
      if p.next < |units| && |p.working| + |p.reporting| < workers then TakeNext(p, units[p.next], late) else p
    case Settle(i, first, second) =>
      if i in p.working && i < |units| then SettleUnit(p, units[i], i, [first, second]) else p
    case Notify(i) =>
      if i in p.reporting then p.(reporting := p.reporting - {i}, notified := p.notified + [i]) else p
  }

  function Run(p: Pool, units: seq<Unit>, workers: nat, steps: seq<Step>): Pool
    decreases steps
  {
    if steps == [] then p else Run(Next(p, units, workers, steps[0]), units, workers, steps[1..])
  }

  // ---- What every interleaving keeps -------------------------------------------------------

  // Of the first `n` units, those no longer being worked on, examined or not.
  function Tally(results: map<nat, Result>, working: set<nat>, n: nat, examined: bool): nat {
    if n == 0 then 0
    else
      Tally(results, working, n - 1, examined)
      + if n - 1 in results && n - 1 !in working && (results[n - 1].examined != []) == examined then 1 else 0
  }

  predicate Counted(p: Pool) {
    p.progress.completed == Tally(p.results, p.working, p.next, true)
    && p.progress.stopped == Tally(p.results, p.working, p.next, false)
    && p.progress.running == |p.working| && p.progress.idle == p.progress.total - p.next
    && p.progress.total == p.progress.completed + p.progress.running + p.progress.idle + p.progress.stopped
  }

  // Every taken unit is with one worker or has been announced once.
  ghost predicate Placed(p: Pool) {
    (forall i :: i in p.working || i in p.reporting || i in p.notified <==> 0 <= i < p.next)
    && p.working !! p.reporting
    && (forall k | 0 <= k < |p.notified| :: p.notified[k] !in p.working && p.notified[k] !in p.reporting)
    && (forall j, k | 0 <= j < k < |p.notified| :: p.notified[j] != p.notified[k])
  }

  ghost predicate Answers(p: Pool, units: seq<Unit>) {
    p.next <= |units| && p.progress.total == |units|
    && (forall i :: i in p.results <==> 0 <= i < p.next)
    && (forall i | i in p.results && i !in p.working :: i < |units| && Covered(p.results[i], units[i].id))
  }

  // Results saved by an earlier run covered their units.
  ghost predicate CacheCovers(units: seq<Unit>) {
    forall i | 0 <= i < |units| && units[i].cached.Some? :: Covered(units[i].cached.value, units[i].id)
  }

  lemma {:induction false} TallyFrame(
      results: map<nat, Result>, working: set<nat>, after: map<nat, Result>, workingAfter: set<nat>, n: nat,
        examined: bool)
    requires forall i | 0 <= i < n :: (i in results <==> i in after) && (i in working <==> i in workingAfter)
    requires forall i | 0 <= i < n && i in results :: results[i] == after[i]
    ensures Tally(after, workingAfter, n, examined) == Tally(results, working, n, examined)
  {
    if n > 0 {
      TallyFrame(results, working, after, workingAfter, n - 1, examined);
    }
  }

  lemma {:induction false} TallySettled(results: map<nat, Result>, working: set<nat>, n: nat, i: nat, r: Result,
      examined: bool)
    requires i in working && i < n && i in results
    ensures Tally(results[i := r], working - {i}, n, examined)
         == Tally(results, working, n, examined) + if (r.examined != []) == examined then 1 else 0
  {
    if i < n - 1 {
      TallySettled(results, working, n - 1, i, r, examined);
    } else {
      TallyFrame(results, working, results[i := r], working - {i}, n - 1, examined);
    }
  }

  lemma TallyEnded(results: map<nat, Result>, working: set<nat>, n: nat, r: Result, examined: bool)
    requires n !in working
    ensures Tally(results[n := r], working, n + 1, examined)
         == Tally(results, working, n, examined) + if (r.examined != []) == examined then 1 else 0
  {
    TallyFrame(results, working, results[n := r], working, n, examined);
  }

  lemma TallyStarted(results: map<nat, Result>, working: set<nat>, n: nat, r: Result, examined: bool)
    ensures Tally(results[n := r], working + {n}, n + 1, examined) == Tally(results, working, n, examined)
  {
    TallyFrame(results, working, results[n := r], working + {n}, n, examined);
  }

  ghost predicate Accounted(p: Pool, units: seq<Unit>) { Counted(p) && Placed(p) && Answers(p, units) }

  lemma TakeKeepsCounts(p: Pool, r: Result)
    requires Counted(p) && p.next !in p.working
    ensures Counted(EndedAt(p, r)) && Counted(StartedAt(p))
  {
    TallyEnded(p.results, p.working, p.next, r, true);
    TallyEnded(p.results, p.working, p.next, r, false);
    TallyStarted(p.results, p.working, p.next, NOTHING, true);
    TallyStarted(p.results, p.working, p.next, NOTHING, false);
  }

  lemma TakeKeepsPlaces(p: Pool, units: seq<Unit>, late: bool)
    requires p.next < |units| && Placed(p) && Answers(p, units) && CacheCovers(units)
    ensures var q := TakeNext(p, units[p.next], late); Placed(q) && Answers(q, units)
  {
    var q := TakeNext(p, units[p.next], late);
    forall i ensures i in q.working || i in q.reporting || i in q.notified <==> 0 <= i < q.next {
    }
  }

  lemma SettleKeepsAccount(p: Pool, units: seq<Unit>, i: nat, attempts: seq<Attempt>)
    requires i in p.working && i < |units| && Accounted(p, units)
    ensures Accounted(SettleUnit(p, units[i], i, attempts), units)
  {
    var r := Settled(Tried(NOTHING, units[i].id, attempts), units[i].id);
    TriedCovers(NOTHING, units[i].id, attempts);
    TallySettled(p.results, p.working, p.next, i, r, true);
    TallySettled(p.results, p.working, p.next, i, r, false);
    var q := SettleUnit(p, units[i], i, attempts);
    forall j ensures j in q.working || j in q.reporting || j in q.notified <==> 0 <= j < q.next {
    }
  }

  lemma NotifyKeepsAccount(p: Pool, units: seq<Unit>, i: nat)
    requires i in p.reporting && Accounted(p, units)
    ensures Accounted(p.(reporting := p.reporting - {i}, notified := p.notified + [i]), units)
  {
    var q := p.(reporting := p.reporting - {i}, notified := p.notified + [i]);
    forall j ensures j in q.working || j in q.reporting || j in q.notified <==> 0 <= j < q.next {
    }
  }

  lemma TakeKeepsAccount(p: Pool, units: seq<Unit>, late: bool)
    requires CacheCovers(units) && Accounted(p, units) && p.next < |units|
    ensures Accounted(TakeNext(p, units[p.next], late), units)
  {
    var unit := units[p.next];
    TakeKeepsCounts(p, if unit.cached.Some? then unit.cached.value else Skipped(NOTHING, unit.id));
    TakeKeepsPlaces(p, units, late);
  }

  lemma NextKeepsAccount(p: Pool, units: seq<Unit>, workers: nat, step: Step)
    requires CacheCovers(units) && Accounted(p, units)
    ensures Accounted(Next(p, units, workers, step), units)
  {
    match step
    case Take(late) =>
      if p.next < |units| {
        TakeKeepsAccount(p, units, late);
      }
    case Settle(i, first, second) =>
      if i in p.working && i < |units| {
        SettleKeepsAccount(p, units, i, [first, second]);
      }
    case Notify(i) =>
      if i in p.reporting {
        NotifyKeepsAccount(p, units, i);
      }
  }

  /** In every interleaving of the workers and for every outcome of their attempts: each unit
      taken so far is with one worker or was announced once, each one no longer worked on is
      exactly one of examined and skipped (and then partial), and the counters are true of
      the units, adding up to the total. */
  lemma {:induction false} WorkersKeepAccount(p: Pool, units: seq<Unit>, workers: nat, steps: seq<Step>)
    requires CacheCovers(units) && Accounted(p, units)
    ensures Accounted(Run(p, units, workers, steps), units)
    decreases steps
  {
    if steps != [] {
      NextKeepsAccount(p, units, workers, steps[0]);
      WorkersKeepAccount(Next(p, units, workers, steps[0]), units, workers, steps[1..]);
    }
  }

  // ---- The stage's result --------------------------------------------------------------------

  function Joined(a: Result, b: Result): Result {
    Result(a.findings + b.findings, a.examined + b.examined, a.skipped + b.skipped,
           a.failed || b.failed, a.partial || b.partial, a.attempts + b.attempts)
  }

  // The results of the first `n` units, in plan order.
  function Merged(results: map<nat, Result>, n: nat): Result {
    if n == 0 then NOTHING
    else Joined(Merged(results, n - 1), if n - 1 in results then results[n - 1] else NOTHING)
  }

  method MergeResults(results: map<nat, Result>, n: nat) returns (merged: Result)
    requires forall i :: i in results <==> 0 <= i < n
    ensures merged == Merged(results, n)
  {
    merged := NOTHING;
    for i := 0 to n
      invariant merged == Merged(results, i)
    {
      var item := results[i];
      merged := Result(merged.findings + item.findings, merged.examined + item.examined, merged.skipped + item.skipped,
                       merged.failed || item.failed, merged.partial || item.partial, merged.attempts + item.attempts);
    }
  }

  // The stage is over: the plan is used up and no worker holds a unit.
  predicate Over(p: Pool, units: seq<Unit>) { p.next == |units| && p.working == {} && p.reporting == {} }

  // Ids of the first `n` units that were examined, or of those that were not.
  function Ids(units: seq<Unit>, results: map<nat, Result>, n: nat, examined: bool): seq<Label> {
    if n == 0 || n > |units| then []
    else
      Ids(units, results, n - 1, examined)
      + if n - 1 in results && (results[n - 1].examined != []) == examined then [units[n - 1].id] else []
  }

  // Each of the first `n` units is in exactly one list, and a skip makes the result partial.
  ghost predicate Covers(m: Result, units: seq<Unit>, results: map<nat, Result>, n: nat) {
    m.examined == Ids(units, results, n, true) && m.skipped == Ids(units, results, n, false)
    && multiset(m.examined) + multiset(m.skipped) == multiset(IdsOf(units, n))
    && (m.skipped != [] ==> m.partial)
  }

  lemma MergedCovers(units: seq<Unit>, results: map<nat, Result>, n: nat)
    requires n <= |units| && forall i | 0 <= i < n :: i in results && Covered(results[i], units[i].id)
    ensures Covers(Merged(results, n), units, results, n)
  {
    for k := 0 to n
      invariant Covers(Merged(results, k), units, results, k)
    {
      MergedStep(units, results, k + 1);
    }
  }

  lemma MergedStep(units: seq<Unit>, results: map<nat, Result>, n: nat)
    requires 0 < n <= |units| && n - 1 in results && Covered(results[n - 1], units[n - 1].id)
    requires Covers(Merged(results, n - 1), units, results, n - 1)
    ensures Covers(Merged(results, n), units, results, n)
  {
    JoinedCoversOn(Merged(results, n - 1), units, results, n);
    assert Merged(results, n) == Joined(Merged(results, n - 1), results[n - 1]);
  }

  lemma JoinedCoversOn(m: Result, units: seq<Unit>, results: map<nat, Result>, n: nat)
    requires 0 < n <= |units| && n - 1 in results && Covered(results[n - 1], units[n - 1].id)
    requires Covers(m, units, results, n - 1)
    ensures Covers(Joined(m, results[n - 1]), units, results, n)
  {
    JoinedCovers(m, results[n - 1], units[n - 1].id);
    IdsGrow(units, results, n);
  }

  lemma IdsGrow(units: seq<Unit>, results: map<nat, Result>, n: nat)
    requires 0 < n <= |units| && n - 1 in results
    ensures var ended, id := results[n - 1].examined != [], units[n - 1].id;
            Ids(units, results, n, ended) == Ids(units, results, n - 1, ended) + [id]
            && Ids(units, results, n, !ended) == Ids(units, results, n - 1, !ended)
            && multiset(IdsOf(units, n)) == multiset(IdsOf(units, n - 1)) + multiset{id}
  {
    var ended := results[n - 1].examined != [];
    assert Ids(units, results, n - 1, !ended) + [] == Ids(units, results, n - 1, !ended);
  }

  lemma JoinedCovers(m: Result, r: Result, id: Label)
    requires Covered(r, id)
    ensures var j := Joined(m, r);
            j.examined == (if r.examined != [] then m.examined + [id] else m.examined)
            && j.skipped == (if r.examined != [] then m.skipped else m.skipped + [id])
            && multiset(j.examined) + multiset(j.skipped) == multiset(m.examined) + multiset(m.skipped) + multiset{id}
            && ((m.skipped != [] ==> m.partial) ==> j.skipped != [] ==> j.partial)
  {
    assert m.examined + [] == m.examined && m.skipped + [] == m.skipped;
  }

  function IdsOf(units: seq<Unit>, n: nat): seq<Label> {
    if n == 0 || n > |units| then [] else IdsOf(units, n - 1) + [units[n - 1].id]
  }

  lemma OverCovers(p: Pool, units: seq<Unit>)
    requires Accounted(p, units) && Over(p, units)
    ensures Covers(Merged(p.results, |units|), units, p.results, |units|) && Announced(p, |units|)
  {
    MergedCovers(units, p.results, |units|);
    forall i ensures i in p.notified <==> 0 <= i < |units| {
      assert i !in p.working && i !in p.reporting;
    }
  }

  // Every unit was announced exactly once, and the counters show nothing left.
  ghost predicate Announced(p: Pool, n: nat) {
    (forall i :: i in p.notified <==> 0 <= i < n)
    && (forall j, k | 0 <= j < k < |p.notified| :: p.notified[j] != p.notified[k])
    && p.progress.running == 0 && p.progress.idle == 0 && p.progress.completed + p.progress.stopped == n
  }

  /** However a stage's workers interleaved, once it is over: every planned unit was announced
      exactly once; the merged result lists the examined units and the skipped ones, in plan
      order and each planned unit in exactly one list; and any skip makes it partial. */
  lemma StagesCoverTheirPlan(units: seq<Unit>, workers: nat, steps: seq<Step>)
    requires CacheCovers(units) && Over(Run(Fresh(units), units, workers, steps), units)
    ensures var p := Run(Fresh(units), units, workers, steps);
            Covers(Merged(p.results, |units|), units, p.results, |units|) && Announced(p, |units|)
  {
    WorkersKeepAccount(Fresh(units), units, workers, steps);
    OverCovers(Run(Fresh(units), units, workers, steps), units);
  }

  /** A stage that is over and not partial examined every planned unit, in plan order. */
  lemma CompleteStagesExaminedEverything(units: seq<Unit>, workers: nat, steps: seq<Step>)
    requires CacheCovers(units) && Over(Run(Fresh(units), units, workers, steps), units)
    requires !Merged(Run(Fresh(units), units, workers, steps).results, |units|).partial
    ensures Merged(Run(Fresh(units), units, workers, steps).results, |units|).examined == IdsOf(units, |units|)
  {
    WorkersKeepAccount(Fresh(units), units, workers, steps);
    OverExamined(Run(Fresh(units), units, workers, steps), units);
  }

  lemma OverExamined(p: Pool, units: seq<Unit>)
    requires Accounted(p, units) && Over(p, units) && !Merged(p.results, |units|).partial
    ensures Merged(p.results, |units|).examined == IdsOf(units, |units|)
  {
    OverCovers(p, units);
    assert Ids(units, p.results, |units|, false) == [];
    NoneSkipped(units, p.results, |units|);
  }

  lemma {:induction false} NoneSkipped(units: seq<Unit>, results: map<nat, Result>, n: nat)
    requires n <= |units| && (forall i | 0 <= i < n :: i in results) && Ids(units, results, n, false) == []
    ensures Ids(units, results, n, true) == IdsOf(units, n)
  {
    if n > 0 {
      NoneSkipped(units, results, n - 1);
    }
  }
}
