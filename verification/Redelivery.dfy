/** A safe run that delivers one job twice: the ticket's reservation changes, and a reservation is left
    that no ticket has. */
module Redelivery {
  import opened Durations
  import opened Tables
  import opened SaleProtocol
  import opened SaleInvariant
  import opened SaleRuns
  import opened SaleTheorems
  import opened Reachable

  /** An attempt that sells the ticket and stalls before it is reported. */
  function Unheard(r: nat, id: Id): WorkerStep {
    EndAttempt(r, Some(id), Stalled)
  }

  /** The first buyer has flagged the seat. */
  function FlaggedSeat(): State {
    Flagged(Checked(Both(), 0), 0)
  }

  lemma FlagsSeat()
    ensures Going(FlaggedSeat(), LEASE, LEASE, FLAG_TTL)
  {
    BothArrive(LEASE, LEASE, FLAG_TTL);
    Checks(Both(), 0, LEASE, LEASE, FLAG_TTL);
    Writes(Checked(Both(), 0), 0, LEASE, LEASE, FLAG_TTL);
  }

  /** Its job has sold the seat, but the queue has not learned of it, and a second later it starts again. */
  function Repeated(): State
    requires CanSell(FlaggedSeat(), 0, ONE)
  {
    var s := SoldBy(FlaggedSeat(), 0, ONE);
    var next := s.now + 2 * LIMITER_DURATION;
    s.(now := s.now + LIMITER_DURATION,
       jobs := s.jobs[0 := s.jobs[0].(status := Queued, stallsLeft := MAX_STALLS - 1)],
       schedule := s.schedule.(active := map[0 := s.now + LIMITER_DURATION], nextStart := next, due := next))
  }

  lemma SeatCanBeSold()
    ensures Idle(FlaggedSeat()) && At(FlaggedSeat().calls, 0, Enqueueing) && 0 !in FlaggedSeat().jobs
    ensures CanSell(FlaggedSeat(), 0, ONE)
  {
  }

  /** The job is back at the front of the wait list. */
  function Returned(): State
    requires CanSell(FlaggedSeat(), 0, ONE)
  {
    var s := SoldBy(FlaggedSeat(), 0, ONE);
    s.(jobs := s.jobs[0 := s.jobs[0].(status := Queued, stallsLeft := MAX_STALLS - 1)],
       schedule := s.schedule.(wait := [0]))
  }

  lemma ReturnDoes()
    requires CanSell(FlaggedSeat(), 0, ONE)
    ensures Enabled(Started(FlaggedSeat(), 0), Worker(Unheard(0, ONE)))
    ensures WorkerDoes(Started(FlaggedSeat(), 0), Unheard(0, ONE)) == Returned()
    ensures forall r :: !Unsettled(Returned().calls, Returned().jobs, r)
  {
    assert [0] + [] == [0];
  }

  lemma RestartDoes()
    requires CanSell(FlaggedSeat(), 0, ONE)
    ensures var s := Returned().(now := Returned().now + LIMITER_DURATION);
      Enabled(s, Worker(StartAttempt)) && WorkerDoes(s, StartAttempt) == Repeated()
  {
    assert [0][1..] == [];
  }

  /** An attempt commits unacknowledged, and a second later the next one starts. */
  lemma CommitsAndRestarts(s: State, r: nat, id: Id, s': State, s'': State)
    requires Going(s, LEASE, LEASE, FLAG_TTL) && Enabled(s, Worker(Unheard(r, id)))
    requires s' == WorkerDoes(s, Unheard(r, id)) && (forall q :: !Unsettled(s'.calls, s'.jobs, q))
    requires s'' == s'.(now := s'.now + LIMITER_DURATION) && Enabled(s'', Worker(StartAttempt))
    ensures Going(WorkerDoes(s'', StartAttempt), LEASE, LEASE, FLAG_TTL)
  {
    WorkGoesOn(s, Unheard(r, id), LEASE, LEASE, FLAG_TTL);
    Waits(s', LIMITER_DURATION, LEASE, LEASE, FLAG_TTL);
    WorkGoesOn(s'', StartAttempt, LEASE, LEASE, FLAG_TTL);
  }

  lemma StartsOnce()
    ensures Going(Started(FlaggedSeat(), 0), LEASE, LEASE, FLAG_TTL)
  {
    FlagsSeat();
    SeatCanBeSold();
    Starts(FlaggedSeat(), 0, LEASE, LEASE, FLAG_TTL);
  }

  lemma Repeats()
    requires CanSell(FlaggedSeat(), 0, ONE)
    ensures Going(Repeated(), LEASE, LEASE, FLAG_TTL)
  {
    StartsOnce();
    ReturnDoes();
    RestartDoes();
    CommitsAndRestarts(Started(FlaggedSeat(), 0), 0, ONE, Returned(), Returned().(now := Returned().now + LIMITER_DURATION));
  }

  /** A sold seat gets another reservation, and no ticket has the old one. */
  ghost predicate Relinked(before: Db, after: Db, t: Id) {
    && IsSold(before, t) && IsSold(after, t)
    && LinkOf(after, t) != LinkOf(before, t)
    && LinkOf(before, t).0 in after.reservations
    && !OneTicketEach(after)
  }

  lemma RepeatCommits()
    requires CanSell(FlaggedSeat(), 0, ONE)
    ensures var s, a := Repeated(), Worker(Sale(0, TWO));
      && Enabled(s, a)
      && IsSold(s.db, SEAT) && LinkOf(s.db, SEAT).0 == ONE
      && IsSold(Apply(s, a).db, SEAT) && LinkOf(Apply(s, a).db, SEAT).0 == TWO
      && ONE in Apply(s, a).db.reservations
      && (forall t | t in Apply(s, a).db.tickets :: Apply(s, a).db.tickets[t].reservationId != Some(ONE))
  {
  }

  lemma RepeatRelinks()
    requires CanSell(FlaggedSeat(), 0, ONE)
    ensures var s, a := Repeated(), Worker(Sale(0, TWO)); Enabled(s, a) && Relinked(s.db, Apply(s, a).db, SEAT)
  {
    RepeatCommits();
  }

  /** The last step of the run relinks the ticket. */
  ghost predicate RelinkedLast(states: seq<State>, acts: seq<Action>, t: Id) {
    && SafeRun(states, acts) && |acts| > 0
    && Relinked(states[|acts| - 1].db, states[|acts|].db, t)
  }

  lemma LastStepRelinks(s: State, a: Action, t: Id)
    requires Reaches(s, LEASE, LEASE, FLAG_TTL) && TimelyStep(s, a, LEASE, LEASE, FLAG_TTL)
    requires Relinked(s.db, Apply(s, a).db, t)
    ensures exists states, acts :: RelinkedLast(states, acts, t)
  {
    ReachThrough(s, a, LEASE, LEASE, FLAG_TTL);
    var states, acts :| TimelyRun(states, acts, LEASE, LEASE, FLAG_TTL) && EndsThrough(states, acts, s, Apply(s, a));
    assert RelinkedLast(states, acts, t);
  }

  /** A worker's step that is enabled in a going state is timely. */
  lemma WorkIsTimely(s: State, step: WorkerStep)
    requires Going(s, LEASE, LEASE, FLAG_TTL) && Enabled(s, Worker(step))
    ensures TimelyStep(s, Worker(step), LEASE, LEASE, FLAG_TTL)
  {
    var s' := WorkerDoes(s, step);
    forall r | Unsettled(s'.calls, s'.jobs, r) ensures Unsettled(s.calls, s.jobs, r) {}
  }

  /** There is a safe run after which a redelivery gives a sold seat another reservation and leaves the old
      one without a ticket, so that reservations and sold tickets no longer correspond. */
  lemma RedeliveryRelinks()
    ensures exists states, acts :: RelinkedLast(states, acts, SEAT)
  {
    SeatCanBeSold();
    Repeats();
    RepeatRelinks();
    WorkIsTimely(Repeated(), Sale(0, TWO));
    LastStepRelinks(Repeated(), Worker(Sale(0, TWO)), SEAT);
  }
}
