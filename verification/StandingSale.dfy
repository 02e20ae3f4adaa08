/** The standing route sells exactly as many tickets as there are buyers or tickets, whichever is
    less, each to one buyer, however the calls interleave. */
module StandingSale {
  import opened Durations
  import opened Tables
  import opened SaleProtocol
  import opened SaleInvariant
  import opened StandingSteps
  import opened SaleRuns
  import opened SaleTheorems

  /** The createStanding calls for event `e`. */
  function CallsFor(standing: map<nat, StandingCall>, e: Id): set<nat> {
    set q | q in standing && standing[q].eventId == e
  }

  /** Those that have bought a ticket. */
  function BuyersOf(standing: map<nat, StandingCall>, e: Id): set<nat> {
    set q | q in standing && standing[q].eventId == e && standing[q].bought.Some?
  }

  predicate IsStanding(db: Db, e: Id) {
    e in db.events && db.events[e].STANDING?
  }

  /** A seating sale is never of a ticket of a standing event. */
  lemma WorkerLeavesStandingEvents(s: State, step: WorkerStep, e: Id)
    requires Inv(s) && WorkerCan(s.now, s.jobs, s.schedule, s.db, step) && IsStanding(s.db, e)
    ensures FreeTickets(WorkerDoes(s, step).db, e) == FreeTickets(s.db, e)
    ensures IsStanding(WorkerDoes(s, step).db, e)
  {
    if Commits(step) {
      assert Scheduled(s.schedule, step.r);
      SaleLeavesOtherEvents(s.db, s.jobs[step.r].booking, step.sale.value, e);
    }
  }

  lemma BuyersAfter(now: nat, eventLeases: map<Id, Lease>, standing: map<nat, StandingCall>, db: Db,
                    q: nat, step: StandingStep, e: Id)
    requires StandingCan(now, eventLeases, standing, db, q, step)
    requires step.CommitSale? ==> standing[q].bought.None?
    ensures |BuyersOf(standing[q := StandingCallAfter(now, standing, q, step)], e)|
         == |BuyersOf(standing, e)| + (if step.CommitSale? && standing[q].eventId == e then 1 else 0)
  {
    var standing' := standing[q := StandingCallAfter(now, standing, q, step)];
    if step.CommitSale? && standing[q].eventId == e {
      assert BuyersOf(standing', e) == BuyersOf(standing, e) + {q};
    } else {
      assert BuyersOf(standing', e) == BuyersOf(standing, e);
    }
  }

  lemma FreeAfterSale(now: nat, eventLeases: map<Id, Lease>, standing: map<nat, StandingCall>, db: Db,
                      q: nat, step: StandingStep, e: Id)
    requires StandingInv(now, eventLeases, standing, db) && StandingCan(now, eventLeases, standing, db, q, step)
    requires step.CommitSale? && now < standing[q].lockedAt + LEASE
    ensures |FreeTickets(StandingDb(db, standing, q, step), e)|
         == |FreeTickets(db, e)| - (if standing[q].eventId == e then 1 else 0)
  {
    var c := standing[q];
    var b := Booking(c.userId, c.phase.ticketId, c.eventId);
    assert SaleInv(now, db, c);
    if c.eventId == e {
      SaleTakesOneFreeTicket(db, b, step.id, e);
    } else {
      SaleLeavesOtherEvents(db, b, step.id, e);
    }
  }

  /** A sale takes one free ticket and makes one buyer; nothing else touches either. */
  lemma StandingBalances(s: State, q: nat, step: StandingStep, e: Id)
    requires Inv(s) && TimelyStep(s, Standing(q, step), LEASE, LEASE, FLAG_TTL) && IsStanding(s.db, e)
    ensures var s' := StandingDoes(s, q, step);
      |FreeTickets(s'.db, e)| + |BuyersOf(s'.standing, e)| == |FreeTickets(s.db, e)| + |BuyersOf(s.standing, e)| && IsStanding(s'.db, e)
  {
    assert step.CommitSale? ==> SaleInv(s.now, s.db, s.standing[q]);
    BuyersAfter(s.now, s.eventLeases, s.standing, s.db, q, step, e);
    if step.CommitSale? {
      FreeAfterSale(s.now, s.eventLeases, s.standing, s.db, q, step, e);
    }
  }

  lemma StepBalances(s: State, a: Action, e: Id)
    requires Inv(s) && TimelyStep(s, a, LEASE, LEASE, FLAG_TTL) && IsStanding(s.db, e)
    ensures var s' := Apply(s, a);
      |FreeTickets(s'.db, e)| + |BuyersOf(s'.standing, e)| == |FreeTickets(s.db, e)| + |BuyersOf(s.standing, e)| && IsStanding(s'.db, e)
  {
    match a
    case Worker(step) => WorkerLeavesStandingEvents(s, step, e);
    case Standing(q, step) => StandingBalances(s, q, step, e);
    case CreateEvent(e', kind, rows) => assert FreeTickets(WithEvent(s.db, e', kind, rows), e) == FreeTickets(s.db, e);
    case _ =>
  }

  /** Free tickets and buyers of an event together. */
  function Stock(s: State, e: Id): nat {
    |FreeTickets(s.db, e)| + |BuyersOf(s.standing, e)|
  }

  lemma StepBalancesAt(states: seq<State>, acts: seq<Action>, e: Id, k: nat)
    requires SafeRun(states, acts) && k < |acts| && IsStanding(states[k].db, e)
    ensures Stock(states[k + 1], e) == Stock(states[k], e) && IsStanding(states[k + 1].db, e)
  {
    RunInv(states, acts, k);
    StepBalances(states[k], acts[k], e);
  }

  /** Free tickets plus buyers of a standing event are the same all run long. */
  lemma {:induction false} RunBalances(states: seq<State>, acts: seq<Action>, e: Id, i: nat, j: nat)
    requires SafeRun(states, acts) && i <= j <= |acts| && IsStanding(states[i].db, e)
    ensures Stock(states[j], e) == Stock(states[i], e) && IsStanding(states[j].db, e)
    decreases j
  {
    if i < j {
      var k := j - 1;
      RunBalances(states, acts, e, i, k);
      StepBalancesAt(states, acts, e, k);
    }
  }

  /** The calls for event `e` that got what the tables decide: a ticket, or the answer that there is none.
      The others are still on their way, or met a held lock, a failure or a crash before they bought. */
  function ServedFor(standing: map<nat, StandingCall>, e: Id): set<nat> {
    set q | q in standing && standing[q].eventId == e && (standing[q].bought.Some? || ToldNone(standing[q].phase))
  }

  predicate ToldNone(p: StandingPhase) {
    p == StandingReleasing(NotFound) || p == StandingReturned(NotFound)
  }

  lemma ServedAndBuyers(s: State, e: Id)
    requires StandingInv(s.now, s.eventLeases, s.standing, s.db)
    ensures BuyersOf(s.standing, e) <= ServedFor(s.standing, e)
    ensures FreeTickets(s.db, e) != {} ==> BuyersOf(s.standing, e) == ServedFor(s.standing, e)
  {
    forall q | q in ServedFor(s.standing, e) ensures q in BuyersOf(s.standing, e) || FreeTickets(s.db, e) == {} {
      assert SaleInv(s.now, s.db, s.standing[q]);
    }
  }

  /** With `n` free tickets at state `i`, before anybody called for the event: in every later state, exactly as
      many calls have bought a ticket as the lesser of `n` and the calls served so far, whatever the interleaving
      and whichever other calls failed, were refused the lock or crashed. */
  lemma StandingSaleIsExact(states: seq<State>, acts: seq<Action>, e: Id, i: nat, j: nat)
    requires SafeRun(states, acts) && i <= j <= |acts| && IsStanding(states[i].db, e)
    requires CallsFor(states[i].standing, e) == {}
    ensures |BuyersOf(states[j].standing, e)|
         == Min(|ServedFor(states[j].standing, e)|, |FreeTickets(states[i].db, e)|)
  {
    RunInv(states, acts, j);
    RunBalances(states, acts, e, i, j);
    assert BuyersOf(states[i].standing, e) == {};
    ServedAndBuyers(states[j], e);
    SubsetSize(BuyersOf(states[j].standing, e), ServedFor(states[j].standing, e));
  }

  /** The call ended with a ticket, or with the answer that there is none; it met no failure. */
  predicate Answered(c: StandingCall) {
    c.phase == StandingReturned(Granted) || c.phase == StandingReturned(NotFound)
  }

  /** So if all `k` calls were answered without failures, exactly min(k, n) of them bought a ticket, and those
      are the ones told Granted. */
  lemma AnsweredSaleIsExact(states: seq<State>, acts: seq<Action>, e: Id, i: nat, j: nat)
    requires SafeRun(states, acts) && i <= j <= |acts| && IsStanding(states[i].db, e)
    requires CallsFor(states[i].standing, e) == {}
    requires forall q | q in CallsFor(states[j].standing, e) :: Answered(states[j].standing[q])
    ensures |BuyersOf(states[j].standing, e)| == Min(|CallsFor(states[j].standing, e)|, |FreeTickets(states[i].db, e)|)
    ensures forall q | q in CallsFor(states[j].standing, e) ::
      states[j].standing[q].phase == StandingReturned(Granted) <==> q in BuyersOf(states[j].standing, e)
  {
    StandingSaleIsExact(states, acts, e, i, j);
    RunInv(states, acts, j);
    var s := states[j];
    forall q | q in CallsFor(s.standing, e) ensures SaleInv(s.now, s.db, s.standing[q]) {}
    assert ServedFor(s.standing, e) == CallsFor(s.standing, e);
  }

  /** Every buyer has a ticket of its own: of the event, sold to its user, on a reservation of the event. */
  lemma BuyersHaveDistinctTickets(states: seq<State>, acts: seq<Action>, p: nat, q: nat, i: nat)
    requires SafeRun(states, acts) && i <= |acts|
    requires p in states[i].standing && q in states[i].standing
    requires states[i].standing[p].bought.Some? && states[i].standing[q].bought.Some?
    ensures BoughtBy(states[i].db, states[i].standing[p])
    ensures p != q ==> states[i].standing[p].bought != states[i].standing[q].bought
  {
    RunInv(states, acts, i);
    assert SaleInv(states[i].now, states[i].db, states[i].standing[p]);
  }

  lemma StepKeepsPurchase(s: State, a: Action, q: nat)
    requires Enabled(s, a) && q in s.standing && s.standing[q].bought.Some?
    ensures q in Apply(s, a).standing && Apply(s, a).standing[q].bought.Some?
  {
  }

  lemma {:induction false} PurchaseStays(states: seq<State>, acts: seq<Action>, q: nat, i: nat, j: nat)
    requires Run(states, acts) && i <= j <= |acts| && q in states[i].standing && states[i].standing[q].bought.Some?
    ensures q in states[j].standing && states[j].standing[q].bought.Some?
    decreases j
  {
    if i < j {
      PurchaseStays(states, acts, q, i, j - 1);
      assert StepAt(states, acts, j - 1);
      StepKeepsPurchase(states[j - 1], acts[j - 1], q);
    }
  }

  /** In any run whatever, a call that ends up without a ticket has left the tables alone at each of its steps. */
  lemma RefusedCallsWriteNothing(states: seq<State>, acts: seq<Action>, q: nat, k: nat, j: nat)
    requires Run(states, acts) && k < j <= |acts| && acts[k].Standing? && acts[k].q == q
    requires q in states[j].standing && states[j].standing[q].bought.None?
    ensures states[k + 1].db == states[k].db
  {
    assert StepAt(states, acts, k);
    if acts[k].move.CommitSale? {
      PurchaseStays(states, acts, q, k + 1, j);
      assert false;
    }
  }
}
