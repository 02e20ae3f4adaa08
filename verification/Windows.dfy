/** The timing windows the constants of the service grant are exactly the ones it needs: with wider ones,
    a run sells one ticket twice, both buyers are told so, and the second sale takes the row from the first. */
module Windows {
  import opened Durations
  import opened Tables
  import opened SaleProtocol
  import opened SaleInvariant
  import opened SaleRuns
  import opened SaleTheorems
  import opened Reachable

  // ---- Three ways to say that a ticket is sold once ----

  predicate SoldOnce(s: State, t: Id) {
    |PastCheck(s, t)| + |OpenJobs(s, t)| + |LinkedTo(s, t)| <= 1
  }

  /** In every run within the windows, what is on its way to a seat or has it is at most one. */
  ghost predicate SafeWindows(w: nat, v: nat, d: nat) {
    forall states: seq<State>, acts: seq<Action>, i: nat, t: Id ::
      TimelyRun(states, acts, w, v, d) && i <= |acts| ==> SoldOnce(states[i], t)
  }

  /** Of two calls told Granted for one ticket, one has given up. */
  predicate OneGrant(s: State, q: nat, r: nat) {
    q != r && ToldGranted(s, q) && ToldGranted(s, r) && TicketOf(s.calls, q) == TicketOf(s.calls, r) ==>
      GivenUp(s, q) || GivenUp(s, r)
  }

  ghost predicate SafeAnswers(w: nat, v: nat, d: nat) {
    forall states: seq<State>, acts: seq<Action>, i: nat, q: nat, r: nat ::
      TimelyRun(states, acts, w, v, d) && i <= |acts| ==> OneGrant(states[i], q, r)
  }

  /** A ticket sold, on either route, stays its buyer's. */
  predicate OwnerStays(s: State, s': State, t: Id) {
    IsSold(s.db, t) ==> SoldTo(s'.db, t, OwnerOf(s.db, t))
  }

  ghost predicate SafeOwners(w: nat, v: nat, d: nat) {
    forall states: seq<State>, acts: seq<Action>, i: nat, j: nat, t: Id ::
      TimelyRun(states, acts, w, v, d) && i <= j <= |acts| ==> OwnerStays(states[i], states[j], t)
  }

  // ---- Refutations ----

  lemma RefutesWindows(s: State, t: Id, w: nat, v: nat, d: nat)
    requires Reaches(s, w, v, d) && !SoldOnce(s, t)
    ensures !SafeWindows(w, v, d)
  {
    var states, acts :| TimelyRun(states, acts, w, v, d) && EndsIn(states, acts, s);
    assert !SoldOnce(states[|acts|], t);
  }

  lemma RefutesAnswers(s: State, q: nat, r: nat, w: nat, v: nat, d: nat)
    requires Reaches(s, w, v, d) && !OneGrant(s, q, r)
    ensures !SafeAnswers(w, v, d)
  {
    var states, acts :| TimelyRun(states, acts, w, v, d) && EndsIn(states, acts, s);
    assert !OneGrant(states[|acts|], q, r);
  }

  lemma RefutesOwners(s: State, a: Action, t: Id, w: nat, v: nat, d: nat)
    requires Reaches(s, w, v, d) && TimelyStep(s, a, w, v, d) && !OwnerStays(s, Apply(s, a), t)
    ensures !SafeOwners(w, v, d)
  {
    ReachThrough(s, a, w, v, d);
    var states, acts :| TimelyRun(states, acts, w, v, d) && EndsThrough(states, acts, s, Apply(s, a));
    assert !OwnerStays(states[|acts| - 1], states[|acts|], t);
  }

  /** A call enqueues for a ticket that is already sold. */
  lemma SoldAndEnqueueing(s: State, r: nat)
    requires At(s.calls, r, Enqueueing) && IsSold(s.db, TicketOf(s.calls, r))
    ensures !SoldOnce(s, TicketOf(s.calls, r))
  {
    var t := TicketOf(s.calls, r);
    assert r in PastCheck(s, t) && s.db.tickets[t].reservationId.value in LinkedTo(s, t);
    assert PastCheck(s, t) != {} && LinkedTo(s, t) != {};
  }

  // ---- The second buyer ----

  /** Call 1 is about to enqueue for a ticket that call 0's completed job has sold to somebody else. */
  predicate LastBuyer(s: State) {
    && Idle(s) && At(s.calls, 1, Enqueueing) && 1 !in s.jobs && CanSell(s, 1, TWO)
    && ToldGranted(s, 0) && 0 in s.jobs && s.jobs[0].status.Completed?
    && TicketOf(s.calls, 0) == TicketOf(s.calls, 1)
    && SoldTo(s.db, TicketOf(s.calls, 0), FIRST.userId) && s.calls[1].booking.userId == SECOND.userId
  }

  /** Both are told Granted, neither gives up, and the second sale takes the row from the first. */
  lemma SecondSaleTakesOver(s: State, w: nat, v: nat, d: nat)
    requires Going(s, w, v, d) && LastBuyer(s)
    ensures !SafeWindows(w, v, d) && !SafeAnswers(w, v, d) && !SafeOwners(w, v, d)
  {
    SoldAndEnqueueing(s, 1);
    RefutesWindows(s, TicketOf(s.calls, 1), w, v, d);
    Starts(s, 1, w, v, d);
    Sells(s, 1, TWO, w, v, d);
    CommitDoes(s, 1, TWO);
    BothToldGranted(s);
    RefutesAnswers(SoldBy(s, 1, TWO), 0, 1, w, v, d);
    RowTakenOver(s);
    RefutesOwners(Started(s, 1), Worker(Sale(1, TWO)), TicketOf(s.calls, 1), w, v, d);
  }

  lemma BothToldGranted(s: State)
    requires LastBuyer(s)
    ensures !OneGrant(SoldBy(s, 1, TWO), 0, 1)
  {
  }

  lemma RowTakenOver(s: State)
    requires LastBuyer(s)
    ensures !OwnerStays(Started(s, 1), SoldBy(s, 1, TWO), TicketOf(s.calls, 1))
  {
    var t := TicketOf(s.calls, 1);
    SaleTouchesOneTicket(s.db, s.calls[1].booking, TWO, t, SECOND.userId);
  }

  // ---- The windows ----

  /** Call 0 has checked the seat at time 0 and call 1 when the lease was over; neither has written. */
  function BothChecked(): State {
    Checked(Checked(Both(), 0).(now := LEASE), 1)
  }

  lemma BothCheck(w: nat, v: nat, d: nat)
    ensures Going(BothChecked(), w, v, d)
  {
    BothArrive(w, v, d);
    Checks(Both(), 0, w, v, d);
    Waits(Checked(Both(), 0), LEASE, w, v, d);
    Checks(Checked(Both(), 0).(now := LEASE), 1, w, v, d);
  }

  /** Call 0 has written its flag then, after its lease, and its job has sold the seat. */
  function SoldLate(): State {
    SoldBy(Flagged(BothChecked(), 0), 0, ONE)
  }

  lemma SellsLate(w: nat, v: nat, d: nat)
    requires w > LEASE && d >= 1
    ensures Going(SoldLate(), w, v, d)
  {
    BothCheck(w, v, d);
    Writes(BothChecked(), 0, w, v, d);
    Sells(Flagged(BothChecked(), 0), 0, ONE, w, v, d);
  }

  /** Call 1 is still about to write. */
  lemma WriterLeft()
    ensures var s := SoldLate();
      && (forall r :: !Unsettled(s.calls, s.jobs, r))
      && At(s.calls, 1, WritingFlag) && 1 !in s.jobs && s.calls[1].lockedAt == s.now
  {
  }

  lemma LastWriterLeft()
    ensures At(SoldLate().calls, 1, WritingFlag)
    ensures LastBuyer(Flagged(SoldLate().(now := SoldLate().now + LIMITER_DURATION), 1))
  {
  }

  lemma WaitsAndWrites(s: State, r: nat, w: nat, v: nat, d: nat)
    requires Going(s, w, v, d) && (forall q :: !Unsettled(s.calls, s.jobs, q))
    requires At(s.calls, r, WritingFlag) && r !in s.jobs && s.calls[r].lockedAt == s.now && w > LIMITER_DURATION && d >= 1
    ensures Going(Flagged(s.(now := s.now + LIMITER_DURATION), r), w, v, d)
  {
    Waits(s, LIMITER_DURATION, w, v, d);
    Writes(s.(now := s.now + LIMITER_DURATION), r, w, v, d);
  }

  /** The first buyer writes its flag when its lease is over: it buys the seat, and so does the second. */
  lemma LateWriteSellsTwice(w: nat, v: nat, d: nat)
    requires w > LEASE && d >= 1
    ensures !SafeWindows(w, v, d) && !SafeAnswers(w, v, d) && !SafeOwners(w, v, d)
  {
    SellsLate(w, v, d);
    WriterLeft();
    LastWriterLeft();
    WaitsAndWrites(SoldLate(), 1, w, v, d);
    SecondSaleTakesOver(Flagged(SoldLate().(now := SoldLate().now + LIMITER_DURATION), 1), w, v, d);
  }

  /** Call 0 has flagged the seat at time 0, and call 1 when that flag was gone. */
  function FlaggedTwice(): State {
    Flagged(Checked(Flagged(Checked(Both(), 0), 0).(now := FLAG_TTL), 1), 1)
  }

  lemma FlagsOnce(w: nat, v: nat, d: nat)
    requires w >= 1 && d >= 1
    ensures Going(Flagged(Checked(Both(), 0), 0), w, v, d)
  {
    BothArrive(w, v, d);
    Checks(Both(), 0, w, v, d);
    Writes(Checked(Both(), 0), 0, w, v, d);
  }

  lemma FlagsTwice(w: nat, v: nat, d: nat)
    requires w >= 1 && d > FLAG_TTL
    ensures Going(FlaggedTwice(), w, v, d)
  {
    FlagsOnce(w, v, d);
    var s := Flagged(Checked(Both(), 0), 0);
    Waits(s, FLAG_TTL, w, v, d);
    Checks(s.(now := FLAG_TTL), 1, w, v, d);
    Writes(Checked(s.(now := FLAG_TTL), 1), 1, w, v, d);
  }

  lemma EnqueuerLeft()
    ensures var s := FlaggedTwice();
      Idle(s) && At(s.calls, 0, Enqueueing) && 0 !in s.jobs && CanSell(s, 0, ONE)
  {
  }

  lemma SecondLeft()
    requires CanSell(FlaggedTwice(), 0, ONE)
    ensures var s := SoldBy(FlaggedTwice(), 0, ONE); LastBuyer(s.(now := s.now + LIMITER_DURATION))
  {
  }

  lemma SecondClaimIsFresh()
    requires CanSell(FlaggedTwice(), 0, ONE)
    ensures var s := SoldBy(FlaggedTwice(), 0, ONE);
      forall r | Unsettled(s.calls, s.jobs, r) :: s.calls[r].flaggedAt == s.now
  {
  }

  /** The first buyer's claim outlives its flag: the second one finds the flag gone, and buys the seat too. */
  lemma OldClaimSellsTwice(w: nat, v: nat, d: nat)
    requires w >= 1 && d > FLAG_TTL
    ensures !SafeWindows(w, v, d) && !SafeAnswers(w, v, d) && !SafeOwners(w, v, d)
  {
    FlagsTwice(w, v, d);
    EnqueuerLeft();
    SecondLeft();
    SecondClaimIsFresh();
    Sells(FlaggedTwice(), 0, ONE, w, v, d);
    var s := SoldBy(FlaggedTwice(), 0, ONE);
    Waits(s, LIMITER_DURATION, w, v, d);
    SecondSaleTakesOver(s.(now := s.now + LIMITER_DURATION), w, v, d);
  }

  // ---- The standing route's window ----

  /** The two buyers call for the hall. */
  function Callers(): State {
    Opening().(standing := map[0 := StandingCall(FIRST.userId, HALL, StandingArrived, 0, None)]
                              [1 := StandingCall(SECOND.userId, HALL, StandingArrived, 0, None)])
  }

  /** A standing step opens no claim. */
  lemma StandingGoesOn(s: State, q: nat, step: StandingStep, w: nat, v: nat, d: nat)
    requires Going(s, w, v, d) && Enabled(s, Standing(q, step)) && WritesWithin(s, Standing(q, step), w, v)
    ensures Going(StandingDoes(s, q, step), w, v, d)
  {
    assert ClaimsYoungerThan(StandingDoes(s, q, step), d);
    ReachStep(s, Standing(q, step), StandingDoes(s, q, step), w, v, d);
  }

  lemma CallersArrive(w: nat, v: nat, d: nat)
    ensures Going(Callers(), w, v, d)
  {
    assert SoldTickets(Opening().db) == {};
    ReachStart(Opening(), w, v, d);
    var one := StandingDoes(Opening(), 0, ArriveStanding(FIRST.userId, HALL));
    StandingGoesOn(Opening(), 0, ArriveStanding(FIRST.userId, HALL), w, v, d);
    StandingGoesOn(one, 1, ArriveStanding(SECOND.userId, HALL), w, v, d);
    assert StandingDoes(one, 1, ArriveStanding(SECOND.userId, HALL)) == Callers();
  }

  /** Call `q` has taken the hall's lock and found the spot. */
  function Found(s: State, q: nat): State
    requires q in s.standing
  {
    s.(eventLeases := s.eventLeases[HALL := Lease(q, s.now + LEASE)],
       standing := s.standing[q := s.standing[q].(phase := Committing(SPOT), lockedAt := s.now)])
  }

  /** Call `q` can take the hall's lock and find the spot. */
  predicate CanFind(s: State, q: nat) {
    && AtStanding(s.standing, q, StandingArrived) && s.standing[q].eventId == HALL
    && LeaseFree(s.eventLeases, HALL, s.now) && HALL in s.db.events && s.standing[q].userId in s.db.users
    && SPOT in FreeTickets(s.db, HALL)
  }

  lemma FindDoes(s: State, q: nat)
    requires CanFind(s, q)
    ensures Enabled(s, Standing(q, AcquireEvent))
    ensures var locked := StandingDoes(s, q, AcquireEvent);
      && Enabled(locked, Standing(q, FindTicket(Some(SPOT))))
      && StandingDoes(locked, q, FindTicket(Some(SPOT))) == Found(s, q)
  {
  }

  lemma Finds(s: State, q: nat, w: nat, v: nat, d: nat)
    requires Going(s, w, v, d) && CanFind(s, q)
    ensures Going(Found(s, q), w, v, d)
  {
    FindDoes(s, q);
    StandingGoesOn(s, q, AcquireEvent, w, v, d);
    StandingGoesOn(StandingDoes(s, q, AcquireEvent), q, FindTicket(Some(SPOT)), w, v, d);
  }

  /** Call 0 has found the spot at time 0 and call 1 when the lease was over; neither has committed. */
  function BothFound(): State {
    Found(Found(Callers(), 0).(now := LEASE), 1)
  }

  lemma BothFind(w: nat, v: nat, d: nat)
    ensures Going(BothFound(), w, v, d)
  {
    CallersArrive(w, v, d);
    Finds(Callers(), 0, w, v, d);
    Waits(Found(Callers(), 0), LEASE, w, v, d);
    Finds(Found(Callers(), 0).(now := LEASE), 1, w, v, d);
  }

  lemma BothCanCommit()
    ensures var s := BothFound();
      && Enabled(s, Standing(0, CommitSale(ONE, true))) && s.standing[0].lockedAt == 0 && s.now == LEASE
      && var s' := StandingDoes(s, 0, CommitSale(ONE, true));
         && Enabled(s', Standing(1, CommitSale(TWO, true))) && s'.standing[1].lockedAt == LEASE && s'.now == LEASE
         && !OwnerStays(s', StandingDoes(s', 1, CommitSale(TWO, true)), SPOT)
  {
  }

  /** The first caller commits when its lease is over: both have found the one free ticket, and both buy it. */
  lemma LateSaleSellsTwice(w: nat, v: nat, d: nat)
    requires v > LEASE
    ensures !SafeOwners(w, v, d)
  {
    BothFind(w, v, d);
    BothCanCommit();
    StandingGoesOn(BothFound(), 0, CommitSale(ONE, true), w, v, d);
    var s := StandingDoes(BothFound(), 0, CommitSale(ONE, true));
    StandingGoesOn(s, 1, CommitSale(TWO, true), w, v, d);
    RefutesOwners(s, Standing(1, CommitSale(TWO, true)), SPOT, w, v, d);
  }

  // ---- Exactness ----

  lemma Widened(states: seq<State>, acts: seq<Action>, w: nat, v: nat, d: nat)
    requires TimelyRun(states, acts, w, v, d) && w <= LEASE && v <= LEASE && d <= FLAG_TTL
    ensures SafeRun(states, acts)
  {
    forall i: nat | i < |acts| ensures TimelyAt(states, acts, LEASE, LEASE, FLAG_TTL, i) {
      assert TimelyAt(states, acts, w, v, d, i);
    }
  }

  lemma FittingWindowsAreSafe(w: nat, v: nat, d: nat)
    requires w <= LEASE && v <= LEASE && d <= FLAG_TTL
    ensures SafeWindows(w, v, d) && SafeAnswers(w, v, d)
  {
    forall states: seq<State>, acts: seq<Action>, i: nat, t: Id | TimelyRun(states, acts, w, v, d) && i <= |acts|
      ensures SoldOnce(states[i], t)
    {
      Widened(states, acts, w, v, d);
      RunSellsOnce(states, acts, t, i);
    }
    forall states: seq<State>, acts: seq<Action>, i: nat, q: nat, r: nat | TimelyRun(states, acts, w, v, d) && i <= |acts|
      ensures OneGrant(states[i], q, r)
    {
      Widened(states, acts, w, v, d);
      if q != r && ToldGranted(states[i], q) && ToldGranted(states[i], r)
         && TicketOf(states[i].calls, q) == TicketOf(states[i].calls, r) {
        OneGrantHolds(states, acts, q, r, i);
      }
    }
  }

  lemma FittingWindowsKeepOwners(w: nat, v: nat, d: nat)
    requires w <= LEASE && v <= LEASE && d <= FLAG_TTL
    ensures SafeOwners(w, v, d)
  {
    forall states: seq<State>, acts: seq<Action>, i: nat, j: nat, t: Id |
      TimelyRun(states, acts, w, v, d) && i <= j <= |acts|
      ensures OwnerStays(states[i], states[j], t)
    {
      Widened(states, acts, w, v, d);
      if IsSold(states[i].db, t) {
        SoldRowIsFinal(states, acts, t, i, j);
      }
    }
  }

  /** In all runs within the windows a ticket sold stays its buyer's, on both routes, if and only if both
      write windows fit the locks' lease and the claims' age fits the flag's lifetime. */
  lemma WindowsAreExact(w: nat, v: nat, d: nat)
    requires w >= 1 && d >= 1
    ensures SafeOwners(w, v, d) <==> w <= LEASE && v <= LEASE && d <= FLAG_TTL
  {
    if w > LEASE {
      LateWriteSellsTwice(w, v, d);
    } else if d > FLAG_TTL {
      OldClaimSellsTwice(w, v, d);
    } else if v > LEASE {
      LateSaleSellsTwice(w, v, d);
    } else {
      FittingWindowsKeepOwners(w, v, d);
    }
  }

  /** With standing sales inside their lease: seats are sold once, and answers are kept, in all runs within the
      windows if and only if flag writes fit the lease and claims the flag's lifetime. */
  lemma SeatWindowsAreExact(w: nat, v: nat, d: nat)
    requires w >= 1 && d >= 1 && v <= LEASE
    ensures SafeWindows(w, v, d) <==> w <= LEASE && d <= FLAG_TTL
    ensures SafeAnswers(w, v, d) <==> w <= LEASE && d <= FLAG_TTL
  {
    if w > LEASE {
      LateWriteSellsTwice(w, v, d);
    } else if d > FLAG_TTL {
      OldClaimSellsTwice(w, v, d);
    } else {
      FittingWindowsAreSafe(w, v, d);
    }
  }

  // ---- Why only calls with a live lease count as past the check ----

  /** In a safe run two calls can be past the check of one seat at once, when the first has outlived its lease. */
  lemma TwoCallsPastTheCheck()
    ensures Reaches(BothChecked(), LEASE, LEASE, FLAG_TTL)
    ensures At(BothChecked().calls, 0, WritingFlag) && At(BothChecked().calls, 1, WritingFlag)
    ensures TicketOf(BothChecked().calls, 0) == TicketOf(BothChecked().calls, 1)
    ensures !Live(BothChecked().now, BothChecked().calls[0])
  {
    BothCheck(LEASE, LEASE, FLAG_TTL);
  }
}
