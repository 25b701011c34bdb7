/** The workers' shared variables as an object, updated between suspensions. */
module UnitPool {
  import opened Sequences
  import opened Findings
  import opened Stages

  // At most two attempts at a unit; `exhausted` reports that the budget ran out.
  method ReviewUnit(id: Label, attempts: seq<Attempt>) returns (r: Result, exhausted: bool)
    requires |attempts| == 2
    ensures r == Settled(Tried(NOTHING, id, attempts), id) && exhausted == Exhausts(attempts)
  {
    r, exhausted := NOTHING, false;
    var k := 0;
    var open := true;
    while open && k < 2
      invariant k <= 2
      invariant Tried(NOTHING, id, attempts) == if open then Tried(r, id, attempts[k..]) else r
      invariant Exhausts(attempts) == if open then Exhausts(attempts[k..]) else exhausted
      invariant open ==> !exhausted && r.examined == []
    {
      assert attempts[k..][0] == attempts[k] && attempts[k..][1..] == attempts[k + 1..];
      r := r.(attempts := r.attempts + 1);
      match attempts[k] {
        case Answered(e) =>
          r := Kept(r, e);
          if e.examined && !e.skipped {
            r := r.(examined := r.examined + [id]);
          }
          open := !e.examined && !e.skipped;
        case OutOfBudget =>
          exhausted, open := true, false;
        case TimedOut(observed) =>
          var kept := LastExamined(observed);
          if kept.Some? {
            r := Kept(r, kept.value).(examined := r.examined + [id]);
          }
          open := false;
        case Broke =>
          r, open := r.(failed := true), false;
      }
      k := k + 1;
    }
    if r.examined == [] {
      r := r.(skipped := r.skipped + [id], partial := true);
    }
  }

  class Workers {
    const units: seq<Unit>
    const count: nat
    var next: nat
    var working: set<nat>
    var reporting: set<nat>
    var results: map<nat, Result>
    var exhausted: bool
    var progress: Progress
    var notified: seq<nat>

    ghost function State(): Pool
      reads this
    {
      Pool(next, working, reporting, results, exhausted, progress, notified)
    }

    constructor (units: seq<Unit>, count: nat)
      ensures this.units == units && this.count == count && State() == Fresh(units)
    {
      this.units, this.count := units, count;
      next, working, reporting, results, exhausted := 0, {}, {}, map[], false;
      progress, notified := Progress(|units|, 0, 0, |units|, 0), [];
    }

    method End(r: Result)
      modifies this`progress
      ensures progress == Ended(old(progress), r)
    {
      progress := if r.examined != [] then progress.(completed := progress.completed + 1)
                  else progress.(stopped := progress.stopped + 1);
    }

    // A free worker takes the next unit off the shared iterator, if one is left.
    method Take(late: bool) returns (taken: Option<nat>)
      modifies this
      ensures State() == Next(old(State()), units, count, Step.Take(late))
      ensures taken
           == if old(next) < |units| && |old(working)| + |old(reporting)| < count then Some(old(next)) else None
    {
      if next >= |units| || |working| + |reporting| >= count {
        return None;
      }
      var i, unit := next, units[next];
      next := next + 1;
      progress := progress.(idle := progress.idle - 1);
      if unit.cached.Some? {
        results, reporting := results[i := unit.cached.value], reporting + {i};
        End(unit.cached.value);
      } else if exhausted || unit.omitted || !unit.selected || late {
        var r := Skipped(NOTHING, unit.id);
        results, reporting := results[i := r], reporting + {i};
        End(r);
      } else {
        results, working := results[i := NOTHING], working + {i};
        progress := progress.(running := progress.running + 1);
      }
      return Some(i);
    }

    method Settle(i: nat, first: Attempt, second: Attempt)
      requires i in working && i < |units|
      modifies this
      ensures State() == Next(old(State()), units, count, Step.Settle(i, first, second))
    {
      var r, spent := ReviewUnit(units[i].id, [first, second]);
      exhausted := exhausted || spent;
      progress := progress.(running := progress.running - 1);
      End(r);
      results, working, reporting := results[i := r], working - {i}, reporting + {i};
    }

    method Notify(i: nat)
      requires i in reporting
      modifies this
      ensures State() == Next(old(State()), units, count, Step.Notify(i))
    {
      reporting, notified := reporting - {i}, notified + [i];
    }
  }
}
