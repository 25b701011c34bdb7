/** The token budget: reservations, settlements and callers waiting for one another. */
module Budgets {
  import opened Sequences

  // `protected` tokens are left to verification calls.
  datatype Limits = Limits(ceiling: int, protected: nat)

  datatype Request = Request(tokens: nat, verification: bool, minimum: Option<nat>)

  datatype Waiter = Waiter(request: Request, notified: bool)

  // `grants` are the outstanding reservations; `overrun` totals what calls used beyond theirs.
  datatype Tracker = Tracker(used: int, reserved: int, grants: seq<nat>, waiters: seq<Waiter>, overrun: nat)

  datatype Outcome = Granted(tokens: nat) | Exhausted | Wait

  function Ceiling(limits: Limits, q: Request): int {
    limits.ceiling - if q.verification then 0 else limits.protected
  }

  // One pass of the reservation loop; `late` says the deadline has passed.
  function Offer(limits: Limits, used: int, reserved: int, q: Request, late: bool): Outcome {
    var available := Ceiling(limits, q) - used;
    var reservation := if q.minimum.Some? && available < q.tokens then available else q.tokens;
    var least := if q.minimum.Some? && q.minimum.value != 0 then q.minimum.value else q.tokens;
    if late || reservation > available || reservation < least then Exhausted
    else if reserved + reservation <= available then Granted(reservation)
    else Wait
  }

  datatype Op =
    | Reserve(request: Request, late: bool)  // a new call asks
    | Retry(waiter: nat, late: bool)         // a notified caller asks again
    | Expire(waiter: nat)                    // a waiting caller runs into the deadline
    | Settle(grant: nat, used: nat)          // a call ends, having used this much

  function Removed<T>(s: seq<T>, k: nat): seq<T> {
    if k < |s| then s[..k] + s[k + 1..] else s
  }

  function Notified(waiters: seq<Waiter>): (all: seq<Waiter>)
    ensures |all| == |waiters| && forall i | 0 <= i < |all| :: all[i] == Waiter(waiters[i].request, true)
  {
    seq(|waiters|, i requires 0 <= i < |waiters| => Waiter(waiters[i].request, true))
  }

  function Asked(limits: Limits, t: Tracker, q: Request, late: bool): Tracker {
    match Offer(limits, t.used, t.reserved, q, late)
    case Granted(n) => t.(reserved := t.reserved + n, grants := t.grants + [n])
    case Exhausted => t
    case Wait => t.(waiters := t.waiters + [Waiter(q, false)])
  }

  function Next(limits: Limits, t: Tracker, op: Op): Tracker {
    match op
    case Reserve(q, late) => Asked(limits, t, q, late)
    case Retry(k, late) =>
      if k < |t.waiters| && t.waiters[k].notified
      then Asked(limits, t.(waiters := Removed(t.waiters, k)), t.waiters[k].request, late)
      else t
    case Expire(k) => if k < |t.waiters| then t.(waiters := Removed(t.waiters, k)) else t
    case Settle(k, used) =>
      if k >= |t.grants| then t
      else
        Tracker(t.used + used, t.reserved - t.grants[k], Removed(t.grants, k), Notified(t.waiters),
                t.overrun + if used > t.grants[k] then used - t.grants[k] else 0)
  }

  function Run(limits: Limits, t: Tracker, ops: seq<Op>): Tracker
    decreases ops
  {
    if ops == [] then t else Run(limits, Next(limits, t, ops[0]), ops[1..])
  }

  function Sum(grants: seq<nat>): nat {
    if grants == [] then 0 else grants[0] + Sum(grants[1..])
  }

  lemma {:induction false} SumAppend(a: seq<nat>, b: seq<nat>)
    ensures Sum(a + b) == Sum(a) + Sum(b)
  {
    if a == [] {
      assert a + b == b;
    } else {
      assert (a + b)[1..] == a[1..] + b;
      SumAppend(a[1..], b);
    }
  }

  lemma SumRemoved(grants: seq<nat>, k: nat)
    requires k < |grants|
    ensures Sum(Removed(grants, k)) == Sum(grants) - grants[k]
  {
    assert grants == grants[..k] + ([grants[k]] + grants[k + 1..]);
    SumAppend(grants[..k], [grants[k]] + grants[k + 1..]);
    SumAppend([grants[k]], grants[k + 1..]);
    SumAppend(grants[..k], grants[k + 1..]);
    assert [grants[k]][1..] == [];
  }

  // `reserved` is what is outstanding; spending and promises stay below the ceiling (or the
  // initial spending, if that was more) but for overruns; and whoever waits without having
  // been told to look again waits for someone else's reservation.
  ghost predicate Balanced(limits: Limits, t: Tracker, initial: int) {
    t.reserved == Sum(t.grants)
    && t.used + t.reserved <= Max(initial, limits.ceiling) + t.overrun
    && (forall w <- t.waiters :: w.notified || t.reserved > 0)
  }

  lemma AskedStaysBalanced(limits: Limits, t: Tracker, q: Request, late: bool, initial: int)
    requires Balanced(limits, t, initial)
    ensures Balanced(limits, Asked(limits, t, q, late), initial)
  {
    var offer := Offer(limits, t.used, t.reserved, q, late);
    if offer.Granted? {
      SumAppend(t.grants, [offer.tokens]);
      assert [offer.tokens][1..] == [];
    }
  }

  lemma NextStaysBalanced(limits: Limits, t: Tracker, op: Op, initial: int)
    requires Balanced(limits, t, initial)
    ensures Balanced(limits, Next(limits, t, op), initial)
  {
    match op
    case Reserve(q, late) => AskedStaysBalanced(limits, t, q, late, initial);
    case Retry(k, late) =>
      if k < |t.waiters| && t.waiters[k].notified {
        AskedStaysBalanced(limits, t.(waiters := Removed(t.waiters, k)), t.waiters[k].request, late, initial);
      }
    case Expire(_) =>
    case Settle(k, used) =>
      if k < |t.grants| {
        SumRemoved(t.grants, k);
      }
  }

  /** Over every interleaving of reservations, settlements, retries and expiries: `reserved`
      is the sum of the outstanding grants, the tokens used never exceed the ceiling (or the
      initial use) plus the calls' own overruns, and no caller is left waiting for nobody. */
  lemma {:induction false} BudgetsStayBalanced(limits: Limits, t: Tracker, ops: seq<Op>, initial: int)
    requires Balanced(limits, t, initial)
    ensures Balanced(limits, Run(limits, t, ops), initial)
    ensures Run(limits, t, ops).used <= Max(initial, limits.ceiling) + Run(limits, t, ops).overrun
    decreases ops
  {
    if ops != [] {
      NextStaysBalanced(limits, t, ops[0], initial);
      BudgetsStayBalanced(limits, Next(limits, t, ops[0]), ops[1..], initial);
    }
    var last := Run(limits, t, ops);
    assert last.reserved >= 0;
  }

  // What an offer means: a grant is at least what the caller needs and at most what it asked,
  // and with everything outstanding keeps within its stage's ceiling; a refusal before the
  // deadline means even an idle tracker could not give what is needed; a wait means some
  // other reservation is outstanding and giving it back could satisfy the caller.
  lemma OffersAreFair(limits: Limits, used: int, reserved: nat, q: Request, late: bool)
    ensures var offer := Offer(limits, used, reserved, q, late);
            var needed := if q.minimum.Some? && q.minimum.value != 0 then q.minimum.value else q.tokens;
            (offer.Granted? ==>
               needed <= offer.tokens <= q.tokens && used + reserved + offer.tokens <= Ceiling(limits, q) && !late)
            && (offer.Exhausted? <==> late || used + needed > Ceiling(limits, q) || needed > q.tokens)
            && (offer.Wait? ==> reserved > 0 && Offer(limits, used, 0, q, false).Granted?)
  {
  }

  /** Whenever nothing is outstanding, whatever happened before, everyone still waiting has been
      told to look again, and whoever looks is answered at once. */
  lemma IdleTrackersAnswer(limits: Limits, t: Tracker, ops: seq<Op>, initial: int)
    requires Balanced(limits, t, initial) && Run(limits, t, ops).grants == []
    ensures var last := Run(limits, t, ops);
            forall w <- last.waiters ::
              w.notified && forall late :: !Offer(limits, last.used, last.reserved, w.request, late).Wait?
  {
    var last := Run(limits, t, ops);
    BudgetsStayBalanced(limits, t, ops, initial);
    forall w, late | w in last.waiters ensures !Offer(limits, last.used, last.reserved, w.request, late).Wait? {
      OffersAreFair(limits, last.used, 0, w.request, late);
    }
  }

  // What one step grants to verification.
  function Verifying(limits: Limits, t: Tracker, op: Op): nat {
    match op
    case Reserve(q, late) => if q.verification then Grant(limits, t, q, late) else 0
    case Retry(k, late) =>
      if k < |t.waiters| && t.waiters[k].notified && t.waiters[k].request.verification
      then Grant(limits, t, t.waiters[k].request, late)
      else 0
    case _ => 0
  }

  function Grant(limits: Limits, t: Tracker, q: Request, late: bool): nat {
    match Offer(limits, t.used, t.reserved, q, late) case Granted(n) => n case _ => 0
  }

  function GrantedToVerification(limits: Limits, t: Tracker, ops: seq<Op>): nat
    decreases ops
  {
    if ops == [] then 0
    else Verifying(limits, t, ops[0]) + GrantedToVerification(limits, Next(limits, t, ops[0]), ops[1..])
  }

  lemma NextSparesShare(limits: Limits, t: Tracker, op: Op, bound: int)
    requires bound >= limits.ceiling - limits.protected
    ensures t.used + t.reserved <= bound + t.overrun ==>
              Next(limits, t, op).used + Next(limits, t, op).reserved
              <= bound + Next(limits, t, op).overrun + Verifying(limits, t, op)
  {
  }

  /** Over every interleaving only verification commits the protected share: what is used and
      promised exceeds the ceiling less that share (or the initial use) by no more than the
      calls' own overruns and what was granted to verification. */
  lemma {:induction false} ProtectedShareIsLeft(limits: Limits, t: Tracker, ops: seq<Op>, bound: int)
    requires bound >= limits.ceiling - limits.protected && t.used + t.reserved <= bound + t.overrun
    ensures var last := Run(limits, t, ops);
            last.used + last.reserved <= bound + last.overrun + GrantedToVerification(limits, t, ops)
    decreases ops
  {
    if ops != [] {
      NextSparesShare(limits, t, ops[0], bound);
      ProtectedShareIsLeft(limits, Next(limits, t, ops[0]), ops[1..], bound + Verifying(limits, t, ops[0]));
    }
  }

  /** So as long as no verification asks, the share is still there for it. */
  lemma {:induction false} ShareIsUntouched(limits: Limits, t: Tracker, ops: seq<Op>)
    requires forall op <- ops :: op.Reserve? ==> !op.request.verification
    requires forall w <- t.waiters :: !w.request.verification
    ensures GrantedToVerification(limits, t, ops) == 0
    decreases ops
  {
    if ops != [] {
      assert ops[0] in ops;
      assert forall w <- Next(limits, t, ops[0]).waiters :: !w.request.verification;
      ShareIsUntouched(limits, Next(limits, t, ops[0]), ops[1..]);
    }
  }

  class BudgetTracker {
    const limits: Limits
    var used: int
    var reserved: int
    ghost var grants: seq<nat>
    ghost var waiters: seq<Waiter>
    ghost var overrun: nat

    ghost function State(): Tracker
      reads this
    {
      Tracker(used, reserved, grants, waiters, overrun)
    }

    constructor (limits: Limits, used: int)
      ensures this.limits == limits && State() == Tracker(used, 0, [], [], 0)
      ensures Balanced(limits, State(), used)
    {
      this.limits, this.used, this.reserved := limits, used, 0;
      grants, waiters, overrun := [], [], 0;
    }

    // One pass through the reservation loop, under the lock.
    method Reserve(q: Request, late: bool) returns (offer: Outcome)
      modifies this
      ensures offer == Offer(limits, old(used), old(reserved), q, late)
      ensures State() == Asked(limits, old(State()), q, late)
    {
      var protected := if q.verification then 0 else limits.protected;
      var available := limits.ceiling - protected - used;
      var reservation: int := q.tokens;
      if q.minimum.Some? && available < reservation {
        reservation := available;
      }
      var least := if q.minimum == None || q.minimum == Some(0) then q.tokens else q.minimum.value;
      if late || reservation > available || reservation < least {
        return Exhausted;
      }
      if reserved + reservation <= available {
        reserved, grants := reserved + reservation, grants + [reservation];
        return Granted(reservation);
      }
      waiters := waiters + [Waiter(q, false)];
      return Wait;
    }

    // A call holding the `k`-th outstanding reservation ends; everyone waiting looks again.
    method Settle(ghost k: nat, reservation: nat, tokens: nat)
      requires k < |grants| && grants[k] == reservation
      modifies this
      ensures State() == Next(limits, old(State()), Op.Settle(k, tokens))
    {
      reserved := reserved - reservation;
      used := used + tokens;
      overrun := overrun + if tokens > reservation then tokens - reservation else 0;
      grants, waiters := Removed(grants, k), Notified(waiters);
    }
  }
}
