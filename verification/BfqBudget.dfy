/**
 * The budget of a BFQ queue: what its dispatch loop charges, when the queue
 * expires, and the budget it gets next (common/block/bfq-iosched.c:304-346,
 * 701-821, 971-1006, 1097-1185; common/block/bfq-sched.c:579-614, 935-939).
 *
 * Which queued request is the next one, and whether an expired one from the
 * fifo goes first, depends on head position and time; here any queued request
 * may be picked.
 */
module BfqBudget {
  import opened SeqUtil

  datatype Reason = TooIdle | Timeout | Exhausted | NoMoreRequests

  // The device: bfq_max_budget, budgets_assigned (budgets), bfq_user_max_budget
  datatype Device = Device(maxBudget: nat, budgets: nat, userMax: nat)

  // sent: the requests the dispatch loop sent since selection, with their charges
  datatype Queue = Queue(sync: bool, sectors: map<nat, nat>, next: Option<nat>, maxBudget: nat, budget: nat,
                         service: nat, dispatched: nat, active: bool, sent: seq<(nat, nat)>)

  const DEFAULT_MAX_BUDGET := 16 * 1024
  const ASYNC_CHARGE_FACTOR := 10

  // ---------------------------------------------------------------- the operations

  // bfq_serv_to_charge
  function Charge(q: Queue, x: nat): nat
    requires x in q.sectors
  {
    q.sectors[x] * (1 + if q.sync then 0 else ASYNC_CHARGE_FACTOR)
  }

  function MinBudget(d: Device): nat {
    if d.budgets < 194 then DEFAULT_MAX_BUDGET / 32 else d.maxBudget / 32
  }

  // Enough for the next request, if there is one.
  function Enough(q: Queue, maxBudget: nat): nat
    requires q.next.Some? ==> q.next.value in q.sectors
  {
    if q.next.Some? then Max(maxBudget, Charge(q, q.next.value)) else maxBudget
  }

  // bfq_updated_next_req: unless the queue is in service
  function Refitted(q: Queue): Queue
    requires q.next.Some? ==> q.next.value in q.sectors
  {
    if q.active || q.next.None? then q else q.(budget := Enough(q, q.maxBudget))
  }

  function NewMax(q: Queue, d: Device, reason: Reason): nat {
    var raw :=
      if !q.sync then d.maxBudget
      else
        match reason
        case TooIdle =>
          if q.dispatched > 0 then Min(q.maxBudget * 2, d.maxBudget)
          else if q.maxBudget > 5 * MinBudget(d) then q.maxBudget - 4 * MinBudget(d)
          else MinBudget(d)
        case Timeout => Min(q.maxBudget * 2, d.maxBudget)
        case Exhausted => Min(q.maxBudget * 4, d.maxBudget)
        case NoMoreRequests => q.maxBudget;
    if d.budgets >= 194 && d.userMax == 0 && raw > d.maxBudget then d.maxBudget else raw
  }

  // __bfq_bfqq_recalc_budget
  function Recalculated(q: Queue, d: Device, reason: Reason): Queue
    requires q.next.Some? ==> q.next.value in q.sectors
  {
    if q.sync && reason == NoMoreRequests then q
    else q.(maxBudget := NewMax(q, d, reason), budget := Enough(q, NewMax(q, d, reason)))
  }

  // bfq_get_next_queue chose this queue
  function Selected(q: Queue): Queue { q.(service := 0, active := true, sent := []) }

  // A candidate for the next request once x is gone: any other, if there is one.
  predicate After(q: Queue, x: nat, next: Option<nat>) {
    if q.next == Some(x) then
      if next.Some? then next.value in q.sectors && next.value != x else q.sectors.Keys <= {x}
    else next == q.next
  }

  // bfq_remove_request
  function Removed(q: Queue, x: nat, next: Option<nat>): Queue
    requires After(q, x, next) && (q.next.Some? ==> q.next.value in q.sectors)
  {
    var p := q.(sectors := q.sectors - {x}, next := next);
    if q.next == Some(x) then Refitted(p) else p
  }

  // One turn of the dispatch loop with room for x; next is the new next request.
  function Served(q: Queue, x: nat, next: Option<nat>): Queue
    requires x in q.sectors && After(q, x, next) && (q.next.Some? ==> q.next.value in q.sectors)
  {
    Removed(q, x, next).(service := q.service + Charge(q, x), sent := q.sent + [(x, Charge(q, x))],
                         dispatched := q.dispatched + 1)
  }

  // bfq_bfqq_expire; slow is what the peak rate estimate says
  function Expired(q: Queue, d: Device, reason: Reason, slow: bool): Queue
    requires q.next.Some? ==> q.next.value in q.sectors
    requires q.service <= q.budget
  {
    var full := slow || (reason == Timeout && q.budget - q.service >= q.budget / 3);
    var p := if full then q.(service := q.budget) else q;
    Recalculated(p, d, reason).(active := false)
  }

  // bfq_add_rq_rb: a new request, and the better of it and the next one so far
  function Arrived(q: Queue, x: nat, n: nat, better: bool): Queue
    requires q.next.Some? ==> q.next.value in q.sectors
  {
    Refitted(q.(sectors := q.sectors[x := n], next := if q.next == None || better then Some(x) else q.next))
  }

  // A back merge: the request grows, and the scheduler is not told.
  function Grown(q: Queue, x: nat, n: nat): Queue
    requires x in q.sectors
  {
    q.(sectors := q.sectors[x := q.sectors[x] + n])
  }

  // The place of x is free, and alias, a request of the same sector, has been
  // sent without a charge.
  function Cleared(q: Queue, x: nat, alias: Option<nat>, next: Option<nat>): Queue {
    match alias
    case None => q
    case Some(y) =>
      q.(sectors := q.sectors - {y}, next := if q.next == alias then next else q.next, dispatched := q.dispatched + 1)
  }

  // bfq_merged_request: a front merge moves the request, which is taken out and
  // added again; an alias is sent in between.
  function FrontMerged(q: Queue, x: nat, n: nat, better: bool, alias: Option<nat>, next: Option<nat>): Queue
    requires x in q.sectors && alias != Some(x) && next != Some(x)
    requires q.next.Some? ==> q.next.value in q.sectors
    requires q.next.Some? && q.next == alias && next.Some? ==> next.value in q.sectors && next != alias
  {
    Arrived(Cleared(q, x, alias, next), x, q.sectors[x] + n, better)
  }

  // bfq_merged_requests: y has been added to x and is removed
  function Absorbed(q: Queue, x: nat, y: nat, next: Option<nat>): Queue
    requires x in q.sectors && y in q.sectors && After(q, y, next) && (q.next.Some? ==> q.next.value in q.sectors)
  {
    Removed(Grown(q, x, q.sectors[y]), y, next)
  }

  // ---------------------------------------------------------------- runs

  function Total(sent: seq<(nat, nat)>): nat {
    if sent == [] then 0 else Total(sent[..|sent| - 1]) + sent[|sent| - 1].1
  }

  lemma TotalMore(sent: seq<(nat, nat)>, e: (nat, nat))
    ensures Total(sent + [e]) == Total(sent) + e.1
  {
    assert (sent + [e])[..|sent|] == sent;
  }

  // The next request is a queued one, there is one if any is queued, and an
  // active queue has had the service its dispatched requests were charged.
  ghost predicate Ok(q: Queue) {
    && (q.next.Some? ==> q.next.value in q.sectors)
    && (q.next.None? ==> q.sectors == map[])
    && (q.active ==> q.service == Total(q.sent) <= q.budget)
  }

  // The device is part of the events that look at it, since its limit follows
  // the estimated peak rate.
  datatype Event =
    | Select
    | Serve(x: nat, next: Option<nat>)
    | Refuse(x: nat, slow: bool, d: Device)
    | Expire(reason: Reason, slow: bool, d: Device)
    | Leave                                  // __bfq_bfqq_expire alone: an exit, or a forced dispatch
    | Arrive(x: nat, n: nat, better: bool)
    | Grow(x: nat, n: nat)
    | FrontMerge(x: nat, n: nat, better: bool, alias: Option<nat>, next: Option<nat>)
    | Absorb(x: nat, y: nat, next: Option<nat>)
    | Pass(x: nat, next: Option<nat>)        // sent without a charge: an alias, or a forced dispatch
    | Complete
    | Reset(maxBudget: nat)                  // the end of a forced dispatch

  ghost predicate Enabled(q: Queue, e: Event) {
    match e
    case Select => !q.active && q.next.Some?
    case Serve(x, next) =>
      q.active && x in q.sectors && q.service <= q.budget && Charge(q, x) <= q.budget - q.service && After(q, x, next)
    case Refuse(x, slow, d) =>
      q.active && x in q.sectors && q.service <= q.budget && Charge(q, x) > q.budget - q.service
    case Expire(reason, slow, d) => q.active && (reason == NoMoreRequests ==> q.next.None?)
    case Leave => q.active
    case Arrive(x, n, better) => x !in q.sectors
    case Grow(x, n) => x in q.sectors
    case FrontMerge(x, n, better, alias, next) =>
      && x in q.sectors && alias != Some(x) && next != Some(x) && (alias.Some? ==> alias.value in q.sectors)
      && (q.next.Some? && q.next == alias ==>
            if next.Some? then next.value in q.sectors && next != alias else q.sectors.Keys <= {x, alias.value})
    case Absorb(x, y, next) => x in q.sectors && y in q.sectors && x != y && After(q, y, next)
    case Pass(x, next) => x in q.sectors && After(q, x, next)
    case Complete => q.dispatched > 0
    case Reset(_) => !q.active && q.next.None?
  }

  ghost function Next(q: Queue, e: Event): Queue
    requires Ok(q) && Enabled(q, e)
  {
    match e
    case Select => Selected(q)
    case Serve(x, next) => Served(q, x, next)
    case Refuse(x, slow, d) => Expired(q.(next := Some(x)), d, Exhausted, slow)
    case Expire(reason, slow, d) => Expired(q, d, reason, slow)
    case Leave => q.(active := false)
    case Arrive(x, n, better) => Arrived(q, x, n, better)
    case Grow(x, n) => Grown(q, x, n)
    case FrontMerge(x, n, better, alias, next) => FrontMerged(q, x, n, better, alias, next)
    case Absorb(x, y, next) => Absorbed(q, x, y, next)
    case Pass(x, next) => Removed(q, x, next).(dispatched := q.dispatched + 1)
    case Complete => q.(dispatched := q.dispatched - 1)
    case Reset(maxBudget) => q.(maxBudget := maxBudget)
  }

  lemma StepOk(q: Queue, e: Event)
    requires Ok(q) && Enabled(q, e)
    ensures Ok(Next(q, e))
  {
    hide Total, Expired, Charge, Enough;
    match e
    case Select => NothingSent();
    case Serve(x, next) => ServedOk(q, x, next);
    case Refuse(x, slow, d) => ExpiredOk(q.(next := Some(x)), d, Exhausted, slow);
    case Expire(reason, slow, d) => ExpiredOk(q, d, reason, slow);
    case FrontMerge(x, n, better, alias, next) => FrontMergedOk(q, x, n, better, alias, next);
    case _ =>
  }

  lemma NothingSent()
    ensures Total([]) == 0
  {
  }

  lemma ServedOk(q: Queue, x: nat, next: Option<nat>)
    requires Ok(q) && Enabled(q, Serve(x, next))
    ensures Ok(Served(q, x, next))
  {
    hide Total, Charge, Enough;
    TotalMore(q.sent, (x, Charge(q, x)));
  }

  lemma ExpiredOk(q: Queue, d: Device, reason: Reason, slow: bool)
    requires (if q.next.Some? then q.next.value in q.sectors else q.sectors == map[]) && q.service <= q.budget
    ensures Ok(Expired(q, d, reason, slow))
  {
    hide Total, NewMax;
  }

  lemma FrontMergedOk(q: Queue, x: nat, n: nat, better: bool, alias: Option<nat>, next: Option<nat>)
    requires Ok(q) && Enabled(q, FrontMerge(x, n, better, alias, next))
    ensures Ok(FrontMerged(q, x, n, better, alias, next))
  {
    hide Total, Charge, Enough;
  }

  ghost predicate CanRun(q: Queue, es: seq<Event>)
    requires Ok(q)
    decreases |es|
  {
    es == [] || (Enabled(q, es[0]) && (StepOk(q, es[0]); CanRun(Next(q, es[0]), es[1..])))
  }

  ghost function Run(q: Queue, es: seq<Event>): (r: Queue)
    requires Ok(q) && CanRun(q, es)
    ensures Ok(r)
    decreases |es|
  {
    if es == [] then q
    else
      StepOk(q, es[0]);
      Run(Next(q, es[0]), es[1..])
  }

  // From selection to expiry the service is the sum of the charges, and never
  // more than the budget.
  lemma ServiceIsCharged(q: Queue, es: seq<Event>)
    requires Ok(q) && CanRun(q, es)
    ensures var r := Run(q, es); r.active ==> r.service == Total(r.sent) <= r.budget
  {
    hide CanRun, Total;
  }

  // The budget an active queue was selected with is the one it keeps.
  lemma ActiveBudgetIsFixed(q: Queue, e: Event)
    requires Ok(q) && Enabled(q, e) && q.active && Next(q, e).active
    ensures Next(q, e).budget == q.budget && Next(q, e).maxBudget == q.maxBudget
  {
    hide Total, NewMax;
  }

  // ---------------------------------------------------------------- budget for the next request

  // A waiting queue can have its next request served in its next turn.
  ghost predicate Covered(q: Queue) {
    !q.active && q.next.Some? ==> q.next.value in q.sectors && Charge(q, q.next.value) <= q.budget
  }

  // The step leaves the next request of a waiting queue larger than its budget:
  // it grows at its end, or by another request, or the queue leaves service
  // without a new budget.
  predicate Loses(q: Queue, e: Event) {
    match e
    case Grow(x, n) => !q.active && q.next == Some(x) && x in q.sectors && Charge(Grown(q, x, n), x) > q.budget
    case Absorb(x, y, _) =>
      && !q.active && q.next == Some(x) && x in q.sectors && y in q.sectors
      && Charge(Grown(q, x, q.sectors[y]), x) > q.budget
    case Leave => q.next.Some? && q.next.value in q.sectors && Charge(q, q.next.value) > q.budget
    case _ => false
  }

  lemma StepCovered(q: Queue, e: Event)
    requires Ok(q) && Covered(q) && Enabled(q, e)
    ensures Covered(Next(q, e)) <==> !Loses(q, e)
  {
    hide Total, Expired, Refitted;
    match e
    case Refuse(x, slow, d) => ExpiredCovered(q.(next := Some(x)), d, Exhausted, slow);
    case Expire(reason, slow, d) => ExpiredCovered(q, d, reason, slow);
    case Arrive(x, n, better) => ArrivedCovered(q, x, n, better);
    case FrontMerge(x, n, better, alias, next) =>
      ArrivedCovered(Cleared(q, x, alias, next), x, q.sectors[x] + n, better);
    case Absorb(x, y, next) => RemovedCovered(Grown(q, x, q.sectors[y]), y, next);
    case Pass(x, next) => RemovedCovered(q, x, next);
    case Serve(x, next) => RemovedActive(q, x, next);
    case _ =>
  }

  lemma RemovedActive(q: Queue, x: nat, next: Option<nat>)
    requires (q.next.Some? ==> q.next.value in q.sectors) && After(q, x, next)
    ensures Removed(q, x, next).active == q.active
  {
  }

  lemma ArrivedCovered(q: Queue, x: nat, n: nat, better: bool)
    requires q.next.Some? ==> q.next.value in q.sectors
    ensures Covered(Arrived(q, x, n, better))
  {
  }

  lemma RemovedCovered(q: Queue, x: nat, next: Option<nat>)
    requires (q.next.Some? ==> q.next.value in q.sectors) && After(q, x, next)
    ensures q.next == Some(x) || Covered(q) ==> Covered(Removed(q, x, next))
    ensures q.next != Some(x) && !Covered(q) ==> !Covered(Removed(q, x, next))
    ensures forall k: nat :: Covered(Removed(q, x, next).(dispatched := k)) == Covered(Removed(q, x, next))
  {
  }

  lemma ExpiredCovered(q: Queue, d: Device, reason: Reason, slow: bool)
    requires (q.next.Some? ==> q.next.value in q.sectors) && q.service <= q.budget &&
             (reason == NoMoreRequests ==> q.next.None?)
    ensures Covered(Expired(q, d, reason, slow))
  {
    hide NewMax;
  }

  ghost predicate AlwaysCovered(q: Queue, es: seq<Event>)
    requires Ok(q) && CanRun(q, es)
    decreases |es|
  {
    Covered(q) && (es == [] || (StepOk(q, es[0]); AlwaysCovered(Next(q, es[0]), es[1..])))
  }

  ghost predicate NeverLoses(q: Queue, es: seq<Event>)
    requires Ok(q) && CanRun(q, es)
    decreases |es|
  {
    es == [] || (!Loses(q, es[0]) && (StepOk(q, es[0]); NeverLoses(Next(q, es[0]), es[1..])))
  }

  // Throughout a run a waiting queue can have its next request served in its next
  // turn, exactly when no step loses the budget for it.
  lemma {:induction false} RunCovered(q: Queue, es: seq<Event>)
    requires Ok(q) && Covered(q) && CanRun(q, es)
    ensures AlwaysCovered(q, es) <==> NeverLoses(q, es)
    ensures AlwaysCovered(q, es) ==> Covered(Run(q, es))
    decreases |es|
  {
    hide Ok, Covered, Next, Enabled, Loses;
    if es != [] {
      StepOk(q, es[0]);
      StepCovered(q, es[0]);
      if !Loses(q, es[0]) {
        RunCovered(Next(q, es[0]), es[1..]);
      }
    }
  }

  // A back merge into the only request of a waiting queue: it no longer fits.
  lemma GrowthOutrunsBudget()
    ensures var q := Empty(50);
            var es := [Arrive(0, 100, true), Grow(0, 1)];
            && Ok(q) && Covered(q) && CanRun(q, es) && !Covered(Run(q, es))
  {
    var q := Empty(50);
    var es := [Arrive(0, 100, true), Grow(0, 1)];
    var q1 := Next(q, es[0]);
    assert q1 == Queue(true, map[0 := 100], Some(0), 50, 100, 0, 0, false, []);
    var q2 := Next(q1, es[1]);
    assert Charge(q2, 0) == 101;
    assert es[1..] == [es[1]] && [es[1]][1..] == [];
    assert CanRun(q2, []) && CanRun(q1, [es[1]]) && CanRun(q, es);
  }

  // ---------------------------------------------------------------- a refused request

  // A queue that expires because a request does not fit has a budget for it.
  lemma RefusedFitsNextTime(q: Queue, x: nat, slow: bool, d: Device)
    requires Ok(q) && Enabled(q, Refuse(x, slow, d))
    ensures var t := Next(q, Refuse(x, slow, d));
            !t.active && t.next == Some(x) && x in t.sectors && Charge(t, x) == Charge(q, x) <= t.budget && Fitted(t)
  {
    hide Total, NewMax;
  }

  // The budget of a waiting queue is what bfq_updated_next_req would set.
  ghost predicate Fitted(q: Queue) {
    !q.active && q.next.Some? ==> q.next.value in q.sectors && q.budget == Max(q.maxBudget, Charge(q, q.next.value))
  }

  lemma WaitingFitted(q: Queue, e: Event)
    requires Ok(q) && !q.active && Fitted(q) && Enabled(q, e) && !e.Select? && !Loses(q, e)
    ensures Fitted(Next(q, e)) && !Next(q, e).active
  {
    hide Total, NewMax, Expired, Refitted;
    match e
    case Arrive(x, n, better) => ArrivedFitted(q, x, n, better);
    case FrontMerge(x, n, better, alias, next) =>
      ArrivedFitted(Cleared(q, x, alias, next), x, q.sectors[x] + n, better);
    case Absorb(x, y, next) => RemovedFitted(Grown(q, x, q.sectors[y]), y, next);
    case Pass(x, next) => RemovedFitted(q, x, next);
    case _ =>
  }

  lemma ArrivedFitted(q: Queue, x: nat, n: nat, better: bool)
    requires !q.active && (q.next.Some? ==> q.next.value in q.sectors)
    ensures Fitted(Arrived(q, x, n, better)) && !Arrived(q, x, n, better).active
  {
  }

  lemma RemovedFitted(q: Queue, x: nat, next: Option<nat>)
    requires !q.active && (q.next.Some? ==> q.next.value in q.sectors) && After(q, x, next)
    ensures q.next == Some(x) || Fitted(q) ==> Fitted(Removed(q, x, next))
    ensures !Removed(q, x, next).active
    ensures forall k: nat :: Fitted(Removed(q, x, next).(dispatched := k)) == Fitted(Removed(q, x, next))
  {
  }

  lemma {:induction false} WaitFitted(q: Queue, es: seq<Event>)
    requires Ok(q) && !q.active && Fitted(q) && CanRun(q, es) && NeverLoses(q, es)
    requires forall i :: 0 <= i < |es| ==> !es[i].Select?
    ensures Fitted(Run(q, es)) && !Run(q, es).active
    decreases |es|
  {
    hide Ok, Fitted, Next, Enabled, Loses;
    if es != [] {
      StepOk(q, es[0]);
      WaitingFitted(q, es[0]);
      WaitFitted(Next(q, es[0]), es[1..]);
    }
  }

  // From the refusal of x to the next selection, whatever happens in between
  // short of a loss: x then fits exactly if its charge is within the queue's
  // maximum or the charge of the next request; so it does if it still is the
  // next one, and then it may be served at once.
  lemma RefusedIsServed(q: Queue, x: nat, slow: bool, d: Device, es: seq<Event>, next: Option<nat>)
    requires Ok(q) && Enabled(q, Refuse(x, slow, d))
    requires var t := Next(q, Refuse(x, slow, d)); Ok(t) && CanRun(t, es) && NeverLoses(t, es)
    requires forall i :: 0 <= i < |es| ==> !es[i].Select?
    ensures var u := Run(Next(q, Refuse(x, slow, d)), es);
            Enabled(u, Select) && x in u.sectors ==>
              && (Charge(u, x) <= u.budget <==> Charge(u, x) <= Max(u.maxBudget, Charge(u, u.next.value)))
              && Ok(Next(u, Select))
              && (u.next == Some(x) && After(u, x, next) ==> Enabled(Next(u, Select), Serve(x, next)))
  {
    var t := Next(q, Refuse(x, slow, d));
    RefusedFitsNextTime(q, x, slow, d);
    hide Next, CanRun, NeverLoses;
    WaitFitted(t, es);
    var u := Run(t, es);
    if Enabled(u, Select) && x in u.sectors {
      StepOk(u, Select);
      SelectedIs(u);
    }
  }

  lemma SelectedIs(q: Queue)
    requires Ok(q) && Enabled(q, Select)
    ensures Next(q, Select) == Selected(q)
  {
  }

  // From an empty queue: a request that grows in service is refused, a smaller one
  // arrives and goes first, and at the next selection the refused one does not fit.
  lemma RefusedCanWaitLonger()
    ensures var q := Empty(10);
            var es := [Arrive(0, 50, true), Select, Grow(0, 50), Refuse(0, false, Device(10, 0, 0)),
                       Arrive(1, 1, true)];
            && Ok(q) && CanRun(q, es) && NeverLoses(q, es)
            && var u := Run(q, es);
            && Enabled(u, Select) && 0 in u.sectors && Charge(u, 0) > u.budget
  {
    var d := Device(10, 0, 0);
    var q2 := Queue(true, map[0 := 50], Some(0), 10, 50, 0, 0, true, []);
    var q3 := Queue(true, map[0 := 100], Some(0), 10, 50, 0, 0, true, []);
    var q4 := Queue(true, map[0 := 100], Some(0), 10, 100, 0, 0, false, []);
    hide CanRun, NeverLoses, Run, Next, Enabled, Ok, Loses;
    OneServed(10, 50);
    GrownAndRefused(q2, q3, q4, d);
    SmallArrives(q4);
    Stop(Next(q4, Arrive(1, 1, true)));
    Then(q4, Arrive(1, 1, true), []);
    Then(q3, Refuse(0, false, d), [Arrive(1, 1, true)]);
    Then(q2, Grow(0, 50), [Refuse(0, false, d), Arrive(1, 1, true)]);
    Then(Waiting(10, 50), Select, [Grow(0, 50), Refuse(0, false, d), Arrive(1, 1, true)]);
    Then(Empty(10), Arrive(0, 50, true), [Select, Grow(0, 50), Refuse(0, false, d), Arrive(1, 1, true)]);
  }

  // A queue with one request, from an empty one, waiting and then in service.
  function Waiting(maxBudget: nat, n: nat): Queue {
    Queue(true, map[0 := n], Some(0), maxBudget, Max(maxBudget, n), 0, 0, false, [])
  }

  lemma OneServed(maxBudget: nat, n: nat)
    ensures var q, q1, e := Empty(maxBudget), Waiting(maxBudget, n), Arrive(0, n, true);
            && Ok(q) && Enabled(q, e) && !Loses(q, e) && Next(q, e) == q1
            && Ok(q1) && Enabled(q1, Select) && !Loses(q1, Select) && Next(q1, Select) == q1.(active := true)
            && Ok(q1.(active := true))
  {
    NothingSent();
    hide Total;
  }

  lemma GrownAndRefused(q2: Queue, q3: Queue, q4: Queue, d: Device)
    requires q2 == Queue(true, map[0 := 50], Some(0), 10, 50, 0, 0, true, []) && d == Device(10, 0, 0)
    requires q3 == q2.(sectors := map[0 := 100]) && q4 == q3.(budget := 100, active := false)
    ensures Ok(q2) && Enabled(q2, Grow(0, 50)) && !Loses(q2, Grow(0, 50)) && Next(q2, Grow(0, 50)) == q3
    ensures Ok(q3) && Enabled(q3, Refuse(0, false, d)) && !Loses(q3, Refuse(0, false, d))
    ensures Next(q3, Refuse(0, false, d)) == q4
  {
    NothingSent();
    hide Total;
  }

  lemma SmallArrives(q: Queue)
    requires q == Queue(true, map[0 := 100], Some(0), 10, 100, 0, 0, false, [])
    ensures var e := Arrive(1, 1, true);
            && Ok(q) && Enabled(q, e) && !Loses(q, e)
            && Ok(Next(q, e)) && Enabled(Next(q, e), Select)
            && 0 in Next(q, e).sectors && Charge(Next(q, e), 0) > Next(q, e).budget
  {
  }

  // A synchronous queue as bfq_find_alloc_queue leaves it.
  function Empty(maxBudget: nat): Queue { Queue(true, map[], None, maxBudget, 0, 0, 0, false, []) }

  lemma Stop(q: Queue)
    requires Ok(q)
    ensures CanRun(q, []) && Run(q, []) == q && NeverLoses(q, [])
  {
  }

  lemma Then(q: Queue, e: Event, es: seq<Event>)
    requires Ok(q) && Enabled(q, e) && Ok(Next(q, e)) && CanRun(Next(q, e), es)
    ensures CanRun(q, [e] + es) && Run(q, [e] + es) == Run(Next(q, e), es)
    ensures !Loses(q, e) && NeverLoses(Next(q, e), es) ==> NeverLoses(q, [e] + es)
  {
    hide Next, Enabled, Ok, Loses;
    assert ([e] + es)[0] == e && ([e] + es)[1..] == es;
  }

  // ---------------------------------------------------------------- the next budget

  // A budget that was used up or timed out shrinks exactly when the device
  // limit has dropped below it.
  lemma BusyBudgetShrinks(q: Queue, d: Device, reason: Reason)
    requires q.sync && (reason == Timeout || reason == Exhausted) && q.maxBudget > 0
    ensures NewMax(q, d, reason) < q.maxBudget <==> d.maxBudget < q.maxBudget
    ensures NewMax(q, d, reason) <= d.maxBudget
  {
  }

  // From an empty queue: the budget is used up, and the next one is smaller.
  lemma BusyBudgetCanShrink()
    ensures var q := Empty(4096);
            var d := Device(1024, 194, 0);
            var es := [Arrive(0, 4090, true), Select, Arrive(1, 8, false), Serve(0, Some(1)), Refuse(1, false, d)];
            Ok(q) && CanRun(q, es) && Run(q, es).maxBudget == 1024 < q.maxBudget
  {
    var d := Device(1024, 194, 0);
    var q2 := Queue(true, map[0 := 4090], Some(0), 4096, 4096, 0, 0, true, []);
    var q3 := Queue(true, map[0 := 4090, 1 := 8], Some(0), 4096, 4096, 0, 0, true, []);
    var q4 := Queue(true, map[1 := 8], Some(1), 4096, 4096, 4090, 1, true, [(0, 4090)]);
    hide CanRun, NeverLoses, Run, Next, Enabled, Ok, Loses;
    OneServed(4096, 4090);
    MoreArrives(q2, q3);
    MostIsServed(q3, q4);
    RestIsRefused(q4, d);
    Stop(Next(q4, Refuse(1, false, d)));
    Then(q4, Refuse(1, false, d), []);
    Then(q3, Serve(0, Some(1)), [Refuse(1, false, d)]);
    Then(q2, Arrive(1, 8, false), [Serve(0, Some(1)), Refuse(1, false, d)]);
    Then(Waiting(4096, 4090), Select, [Arrive(1, 8, false), Serve(0, Some(1)), Refuse(1, false, d)]);
    Then(Empty(4096), Arrive(0, 4090, true), [Select, Arrive(1, 8, false), Serve(0, Some(1)), Refuse(1, false, d)]);
  }

  lemma MoreArrives(q2: Queue, q3: Queue)
    requires q2 == Queue(true, map[0 := 4090], Some(0), 4096, 4096, 0, 0, true, [])
    requires q3 == q2.(sectors := map[0 := 4090, 1 := 8])
    ensures Ok(q2) && Enabled(q2, Arrive(1, 8, false)) && Next(q2, Arrive(1, 8, false)) == q3
  {
    NothingSent();
    hide Total;
  }

  lemma MostIsServed(q3: Queue, q4: Queue)
    requires q3 == Queue(true, map[0 := 4090, 1 := 8], Some(0), 4096, 4096, 0, 0, true, [])
    requires q4 == Queue(true, map[1 := 8], Some(1), 4096, 4096, 4090, 1, true, [(0, 4090)])
    ensures Ok(q3) && Enabled(q3, Serve(0, Some(1))) && Next(q3, Serve(0, Some(1))) == q4 && Ok(q4)
  {
    NothingSent();
    TotalMore([], (0, 4090));
    assert [] + [(0, 4090)] == [(0, 4090)];
    hide Total;
  }

  lemma RestIsRefused(q: Queue, d: Device)
    requires q == Queue(true, map[1 := 8], Some(1), 4096, 4096, 4090, 1, true, [(0, 4090)]) && d == Device(1024, 194, 0)
    requires Ok(q)
    ensures Enabled(q, Refuse(1, false, d))
    ensures var t := Next(q, Refuse(1, false, d)); Ok(t) && t.maxBudget == 1024
  {
    hide Total;
  }

  // The maximum after k expiries in a row for being idle, with nothing outstanding.
  function IdledMax(q: Queue, d: Device, k: nat): nat {
    if k == 0 then q.maxBudget else NewMax(q.(maxBudget := IdledMax(q, d, k - 1)), d, TooIdle)
  }

  lemma IdleOnce(q: Queue, d: Device, m: nat)
    requires q.sync && q.dispatched == 0
    ensures var min, n := MinBudget(d), NewMax(q.(maxBudget := m), d, TooIdle);
            && (m <= 5 * min ==> n == min)
            && (m > 5 * min ==> min <= n <= m - 4 * min)
            && (min == 0 ==> n >= Min(m, d.maxBudget))
  {
  }

  lemma {:induction false} IdleFalls(q: Queue, d: Device, k: nat)
    requires q.sync && q.dispatched == 0
    ensures (k > 0 && IdledMax(q, d, k) == MinBudget(d)) || IdledMax(q, d, k) <= q.maxBudget - MinBudget(d) * 4 * k
    ensures MinBudget(d) == 0 ==> IdledMax(q, d, k) >= Min(q.maxBudget, d.maxBudget)
  {
    hide MinBudget, NewMax;
    if k > 0 {
      IdleFalls(q, d, k - 1);
      IdleOnce(q, d, IdledMax(q, d, k - 1));
      assert MinBudget(d) * 4 * k == MinBudget(d) * 4 * (k - 1) + MinBudget(d) * 4;
    }
  }

  // A queue that keeps expiring for being idle comes down to the minimal budget
  // and stays there, within as many expiries as four minimal budgets go into its
  // maximum, and one more; with a minimal budget of zero it never loses any but
  // to the device limit.
  lemma IdleBudgetSettles(q: Queue, d: Device, k: nat)
    requires q.sync && q.dispatched == 0
    ensures MinBudget(d) > 0 && k > q.maxBudget / (4 * MinBudget(d)) ==> IdledMax(q, d, k) == MinBudget(d)
    ensures MinBudget(d) == 0 ==> IdledMax(q, d, k) >= Min(q.maxBudget, d.maxBudget)
  {
    hide MinBudget, IdledMax;
    IdleFalls(q, d, k);
    if MinBudget(d) > 0 && k > q.maxBudget / (4 * MinBudget(d)) {
      Exceeds(q.maxBudget, 4 * MinBudget(d), k);
    }
  }

  lemma Exceeds(a: nat, b: nat, k: nat)
    requires b > 0 && k > a / b
    ensures b * k > a
  {
    var i := a / b;
    assert a < b * i + b;
    Multiplied(b, i + 1, k);
  }

  lemma {:induction false} Multiplied(b: nat, i: nat, k: nat)
    requires i <= k
    ensures b * i <= b * k
    decreases k - i
  {
    if i < k {
      Multiplied(b, i + 1, k);
      assert b * (i + 1) == b * i + b;
    }
  }

  // ---------------------------------------------------------------- the dispatch loop

  lemma {:induction false} RunOneMore(q: Queue, es: seq<Event>, e: Event)
    requires Ok(q) && CanRun(q, es) && Enabled(Run(q, es), e)
    ensures CanRun(q, es + [e]) && Run(q, es + [e]) == Next(Run(q, es), e)
    decreases |es|
  {
    hide Ok, Next, Enabled;
    if es == [] {
      StepOk(q, e);
      assert es + [e] == [e] && [e][1..] == [];
    } else {
      StepOk(q, es[0]);
      RunOneMore(Next(q, es[0]), es[1..], e);
      assert (es + [e])[1..] == es[1..] + [e] && (es + [e])[0] == es[0];
    }
  }

  function Serves(es: seq<Event>): nat {
    if es == [] then 0 else Serves(es[..|es| - 1]) + if es[|es| - 1].Serve? then 1 else 0
  }

  lemma ServesOneMore(es: seq<Event>, e: Event)
    ensures Serves(es + [e]) == Serves(es) + if e.Serve? then 1 else 0
  {
    assert (es + [e])[..|es|] == es;
  }

  class BfqQueue {
    const sync: bool
    var sectors: map<nat, nat>
    var next: Option<nat>
    var maxBudget: nat
    var budget: nat
    var service: nat
    var dispatched: nat
    var active: bool
    var sent: seq<(nat, nat)>

    function Abs(): Queue
      reads this
    {
      Queue(sync, sectors, next, maxBudget, budget, service, dispatched, active, sent)
    }

    constructor (sync: bool, maxBudget: nat)
      ensures Abs() == Queue(sync, map[], None, maxBudget, 0, 0, 0, false, []) && Ok(Abs())
    {
      this.sync, this.maxBudget, budget := sync, maxBudget, 0;
      sectors, next, service, dispatched, active, sent := map[], None, 0, 0, false, [];
    }

    // bfq_remove_request
    method Remove(x: nat)
      requires x in sectors && Ok(Abs())
      modifies `sectors, `next, `budget
      ensures After(old(Abs()), x, next) && Abs() == Removed(old(Abs()), x, next)
    {
      var was := next;
      sectors := sectors - {x};
      if was == Some(x) {
        if sectors.Keys == {} {
          next := None;
        } else {
          var y :| y in sectors.Keys;
          next := Some(y);
          UpdatedNext();
        }
      }
    }

    // bfq_updated_next_req
    method UpdatedNext()
      requires next.Some? ==> next.value in sectors
      modifies `budget
      ensures Abs() == Refitted(old(Abs()))
    {
      if next.None? || active {
        return;
      }
      budget := Max(maxBudget, Charge(Abs(), next.value));
    }

    // bfq_add_rq_rb, with the aliases out of the way
    method Add(x: nat, n: nat, better: bool)
      requires next.Some? ==> next.value in sectors
      modifies `sectors, `next, `budget
      ensures Abs() == Arrived(old(Abs()), x, n, better)
    {
      sectors := sectors[x := n];
      if next == None || better {
        next := Some(x);
      }
      UpdatedNext();
    }

    // bfq_reposition_rq_rb after x has grown by n in front
    method Reposition(x: nat, n: nat, better: bool, alias: Option<nat>) returns (ghost rest: Option<nat>)
      requires Ok(Abs()) && x in sectors && alias != Some(x) && (alias.Some? ==> alias.value in sectors)
      modifies this
      ensures Enabled(old(Abs()), Event.FrontMerge(x, n, better, alias, rest))
      ensures Abs() == FrontMerged(old(Abs()), x, n, better, alias, rest)
    {
      hide Total, Refitted;
      var size := sectors[x];
      rest := None;
      if alias.Some? {
        if next == alias {
          var others := sectors.Keys - {x, alias.value};
          if others == {} {
            next := None;
          } else {
            var y :| y in others;
            next := Some(y);
          }
          rest := next;
        }
        sectors := sectors - {alias.value};
        dispatched := dispatched + 1;
      }
      Add(x, size + n, better);
    }

    // bfq_merged_requests, y having been added to x
    method MergedRequests(x: nat, y: nat)
      requires Ok(Abs()) && x in sectors && y in sectors && x != y
      modifies this
      ensures After(old(Abs()), y, next) && Abs() == Absorbed(old(Abs()), x, y, next)
    {
      hide Total, Refitted;
      sectors := sectors[x := sectors[x] + sectors[y]];
      Remove(y);
    }

    // bfq_bfqq_served and bfq_dispatch_insert
    method Send(x: nat)
      requires x in sectors && Ok(Abs()) && active && Charge(Abs(), x) <= budget - service
      modifies this
      ensures After(old(Abs()), x, next) && Abs() == Served(old(Abs()), x, next)
    {
      hide Total, Refitted;
      var charge := Charge(Abs(), x);
      Remove(x);
      service := service + charge;
      sent := sent + [(x, charge)];
      dispatched := dispatched + 1;
    }

    // bfq_bfqq_expire
    method Expire(d: Device, reason: Reason, slow: bool)
      requires Ok(Abs()) && service <= budget
      modifies this
      ensures Abs() == Expired(old(Abs()), d, reason, slow) && !active
    {
      hide Total, NewMax;
      ghost var q := Abs();
      var m := NewMax(Abs(), d, reason);
      if slow || (reason == Timeout && budget - service >= budget / 3) {
        service := budget;
      }
      active := false;
      SameMax(q, service, d, reason);
      if sync && reason == NoMoreRequests {
        return;
      }
      maxBudget := m;
      budget := if next.Some? then Max(m, Charge(Abs(), next.value)) else m;
    }

    // __bfq_dispatch_requests: at most maxDispatch requests, and expiry when one
    // does not fit, or after enough of them if other queues are waiting
    method Dispatch(d: Device, maxDispatch: nat, othersWait: bool, idleClass: bool, asyncMax: nat, slow: bool)
      returns (n: nat, ghost es: seq<Event>)
      requires Ok(Abs()) && active && sectors != map[]
      modifies this
      ensures CanRun(old(Abs()), es) && Abs() == Run(old(Abs()), es)
      ensures n == Serves(es) && (maxDispatch > 0 ==> n <= maxDispatch)
      ensures active ==> n > 0 && (n >= maxDispatch || sectors == map[])
    {
      hide Total, Served, Expired;
      ghost var q := Abs();
      n, es := 0, [];
      var more := true;
      while more
        invariant CanRun(q, es) && Abs() == Run(q, es) && active
        invariant n == Serves(es) && (maxDispatch > 0 ==> n <= maxDispatch)
        invariant more ==> sectors != map[] && (n == 0 || n < maxDispatch)
        invariant !more ==> n > 0 && (n >= maxDispatch || sectors == map[])
        decreases sectors.Keys, more
      {
        assert sectors.Keys != {};
        var x :| x in sectors.Keys;
        if Charge(Abs(), x) > budget - service {
          RunOneMore(q, es, Event.Refuse(x, slow, d));
          ServesOneMore(es, Event.Refuse(x, slow, d));
          es := es + [Event.Refuse(x, slow, d)];
          next := Some(x);
          Expire(d, Exhausted, slow);
          return;
        }
        ghost var was := Abs();
        Send(x);
        RunOneMore(q, es, Event.Serve(x, next));
        ServesOneMore(es, Event.Serve(x, next));
        es := es + [Event.Serve(x, next)];
        n := n + 1;
        ServedLess(was, x, next);
        if sectors.Keys == {} || n >= maxDispatch {
          more := false;
        }
      }
      if othersWait && ((!sync && n >= asyncMax) || idleClass) {
        RunOneMore(q, es, Event.Expire(Exhausted, slow, d));
        ServesOneMore(es, Event.Expire(Exhausted, slow, d));
        es := es + [Event.Expire(Exhausted, slow, d)];
        Expire(d, Exhausted, slow);
      }
    }
  }

  lemma SameMax(q: Queue, service: nat, d: Device, reason: Reason)
    ensures NewMax(q.(service := service), d, reason) == NewMax(q, d, reason)
  {
  }

  lemma ServedLess(q: Queue, x: nat, next: Option<nat>)
    requires Ok(q) && x in q.sectors && After(q, x, next)
    ensures var t := Served(q, x, next); t.sectors.Keys < q.sectors.Keys && t.active == q.active
  {
  }
}
