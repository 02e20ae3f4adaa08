/** What every step of the sale keeps, provided flags and standing sales are written while the
    writer's lease is live, and claims settle while their flag is up. Each conjunct names only
    the stores it is about. */
module SaleInvariant {
  import opened Durations
  import opened Tables
  import opened SaleProtocol

  // ---- Claims ----

  /** The call has flagged its ticket and the outcome of its claim is still open. */
  predicate Unsettled(calls: map<nat, Call>, jobs: map<nat, Job>, r: nat) {
    && r in calls
    && (calls[r].phase.Enqueueing? || calls[r].phase.Compensating?
        || (r in jobs && jobs[r].status.Queued? && !jobs[r].committed))
  }

  /** The call has a stake in its ticket: an open claim, a queued job, or a committed sale. */
  predicate Staked(calls: map<nat, Call>, jobs: map<nat, Job>, r: nat) {
    && r in calls
    && (calls[r].phase.Enqueueing? || calls[r].phase.Compensating?
        || (r in jobs && (jobs[r].status.Queued? || jobs[r].committed)))
  }

  function TicketOf(calls: map<nat, Call>, r: nat): Id
    requires r in calls
  {
    calls[r].booking.ticketId
  }

  predicate Live(now: nat, c: Call) {
    now < c.lockedAt + LEASE
  }

  predicate Told(p: Phase, answer: Answer) {
    p == Releasing(answer) || p == Returned(answer)
  }

  // ---- Timing hypotheses ----

  /** A step that writes a flag does so within `w` of locking, one that commits a standing sale within `v`. */
  predicate WritesWithin(s: State, a: Action, w: nat, v: nat)
    requires Enabled(s, a)
  {
    match a
    case Seating(r, step) => step.WriteFlag? || step == Fault(true) ==> s.now < s.calls[r].lockedAt + w
    case Standing(q, step) => step.CommitSale? ==> s.now < s.standing[q].lockedAt + v
    case _ => true
  }

  /** Every open claim is younger than `d`. */
  ghost predicate ClaimsYoungerThan(s: State, d: nat) {
    forall r | Unsettled(s.calls, s.jobs, r) :: s.now < s.calls[r].flaggedAt + d
  }

  // ---- The invariant of the seating route ----

  /** A call that holds its lock and whose lease is live is the owner the lock store knows. */
  ghost predicate LocksInv(now: nat, leases: map<Id, Lease>, calls: map<nat, Call>) {
    forall r | r in calls && Holding(calls[r].phase) && Live(now, calls[r]) ::
      TicketOf(calls, r) in leases && leases[TicketOf(calls, r)] == Lease(r, calls[r].lockedAt + LEASE)
  }

  /** While a call's lease is live, what it has read about its ticket stays true until it writes. */
  ghost predicate ChecksInv(now: nat, flags: map<Id, nat>, calls: map<nat, Call>, jobs: map<nat, Job>, db: Db) {
    forall r | r in calls && (calls[r].phase.ReadingRow? || calls[r].phase.WritingFlag?) && Live(now, calls[r]) ::
      && !FlagUp(now, flags, TicketOf(calls, r))
      && (forall q | Unsettled(calls, jobs, q) :: TicketOf(calls, q) != TicketOf(calls, r))
      && (calls[r].phase.WritingFlag? ==> Available(db, TicketOf(calls, r)))
  }

  /** An open claim's flag is the one it wrote, and its ticket is still available. */
  ghost predicate ClaimsInv(now: nat, flags: map<Id, nat>, calls: map<nat, Call>, jobs: map<nat, Job>, db: Db) {
    forall r | Unsettled(calls, jobs, r) ::
      && TicketOf(calls, r) in flags && flags[TicketOf(calls, r)] == calls[r].flaggedAt + FLAG_TTL
      && calls[r].flaggedAt <= now
      && Available(db, TicketOf(calls, r))
  }

  /** The job has no attempt left, or none of the stalls it is allowed. */
  predicate UsedUp(j: Job)
    requires j.status.Exhausted?
  {
    if j.status.byStall then j.stallsLeft == 0 else j.attemptsLeft == 0
  }

  /** Calls told Granted are exactly those with a job, up to crashes after the enqueue. */
  ghost predicate JobsInv(now: nat, calls: map<nat, Call>, jobs: map<nat, Job>) {
    && (forall r | r in calls :: Told(calls[r].phase, Granted) ==> r in jobs)
    && (forall r | r in jobs ::
          && r in calls && jobs[r].booking == calls[r].booking
          && (Told(calls[r].phase, Granted) || calls[r].phase.Crashed?)
          && (jobs[r].status.Completed? ==> jobs[r].committed)
          && (jobs[r].status.Queued? ==> 1 <= jobs[r].attemptsLeft <= ATTEMPTS)
          && (jobs[r].status.Exhausted? ==> UsedUp(jobs[r]) && calls[r].flaggedAt <= jobs[r].status.at)
          && calls[r].flaggedAt <= now)
  }

  /** A committed job's ticket is sold to the job's user. */
  ghost predicate CommitsInv(jobs: map<nat, Job>, db: Db) {
    forall r | r in jobs && jobs[r].committed :: SoldTo(db, jobs[r].booking.ticketId, jobs[r].booking.userId)
  }

  ghost predicate OneStakePerTicket(calls: map<nat, Call>, jobs: map<nat, Job>) {
    forall q, r | Staked(calls, jobs, q) && Staked(calls, jobs, r) :: TicketOf(calls, q) == TicketOf(calls, r) ==> q == r
  }

  ghost predicate RequestsInv(calls: map<nat, Call>, db: Db) {
    forall r | r in calls :: SeatingRequest(db, TicketOf(calls, r))
  }

  /** Flags are raised for tickets of SEATING events only. */
  ghost predicate FlagsInv(flags: map<Id, nat>, db: Db) {
    forall t | t in flags :: t in db.tickets && SeatingRequest(db, t)
  }

  ghost predicate SeatingInv(now: nat, leases: map<Id, Lease>, flags: map<Id, nat>,
                             calls: map<nat, Call>, jobs: map<nat, Job>, db: Db) {
    && LocksInv(now, leases, calls)
    && ChecksInv(now, flags, calls, jobs, db)
    && ClaimsInv(now, flags, calls, jobs, db)
    && JobsInv(now, calls, jobs)
    && CommitsInv(jobs, db)
    && OneStakePerTicket(calls, jobs)
    && RequestsInv(calls, db)
    && FlagsInv(flags, db)
  }

  // ---- The invariant of the standing route ----

  ghost predicate EventLocksInv(now: nat, eventLeases: map<Id, Lease>, standing: map<nat, StandingCall>) {
    forall q | q in standing && HoldingEvent(standing[q].phase) && now < standing[q].lockedAt + LEASE ::
      && standing[q].eventId in eventLeases
      && eventLeases[standing[q].eventId] == Lease(q, standing[q].lockedAt + LEASE)
  }

  /** The ticket a standing call bought: sold to its user, of its event, on a reservation of that event. */
  predicate BoughtBy(db: Db, c: StandingCall)
    requires c.bought.Some?
  {
    var t := c.bought.value;
    && SoldTo(db, t, c.userId)
    && db.tickets[t].eventId == c.eventId && c.eventId in db.events
    && db.reservations[db.tickets[t].reservationId.value].eventId == c.eventId
  }

  ghost predicate SaleInv(now: nat, db: Db, c: StandingCall) {
    && (c.phase.Committing? ==> c.eventId in db.events)
    && (c.phase.Committing? && now < c.lockedAt + LEASE ==> c.phase.ticketId in FreeTickets(db, c.eventId))
    && (c.phase.StandingArrived? || c.phase.Finding? || c.phase.Committing? ==> c.bought.None?)
    && (c.phase == StandingReleasing(NotFound) || c.phase == StandingReturned(NotFound) ==>
          c.bought.None? && c.eventId in db.events && FreeTickets(db, c.eventId) == {})
    && (c.phase == StandingReleasing(Granted) || c.phase == StandingReturned(Granted) ==> c.bought.Some?)
    && (c.bought.Some? ==> BoughtBy(db, c))
    && StandingRequest(db, c.eventId)
  }

  ghost predicate DistinctPurchases(standing: map<nat, StandingCall>) {
    forall p, q | p in standing && q in standing && standing[p].bought.Some? ::
      standing[p].bought == standing[q].bought ==> p == q
  }

  ghost predicate StandingInv(now: nat, eventLeases: map<Id, Lease>, standing: map<nat, StandingCall>, db: Db) {
    && EventLocksInv(now, eventLeases, standing)
    && (forall q | q in standing :: SaleInv(now, db, standing[q]))
    && DistinctPurchases(standing)
  }

  // ---- The tables and the schedule ----

  /** Conservation: one reservation per sold ticket, plus one per repeated delivery. */
  ghost predicate TablesInv(db: Db, redelivered: nat) {
    && Consistent(db)
    && |db.reservations| == |SoldTickets(db)| + redelivered
    && (forall t | t in db.tickets :: db.tickets[t].eventId in db.events)
  }

  predicate Scheduled(q: Schedule, r: nat) {
    r in q.wait || r in q.delayed || r in q.active
  }

  /** The schedule holds each queued job in exactly one place, and nothing else. */
  ghost predicate ScheduleInv(jobs: map<nat, Job>, q: Schedule) {
    && (forall r | Scheduled(q, r) :: r in jobs && jobs[r].status.Queued?)
    && (forall r | r in jobs && jobs[r].status.Queued? :: Scheduled(q, r))
    && (forall i, j | 0 <= i < j < |q.wait| :: q.wait[i] != q.wait[j])
    && (forall r | r in q.wait :: r !in q.delayed && r !in q.active)
    && (forall r | r in q.active :: r !in q.delayed)
  }

  ghost predicate Inv(s: State) {
    && SeatingInv(s.now, s.leases, s.flags, s.calls, s.jobs, s.db)
    && StandingInv(s.now, s.eventLeases, s.standing, s.db)
    && TablesInv(s.db, s.redelivered)
    && ScheduleInv(s.jobs, s.schedule)
  }

  lemma InitInv(s: State)
    requires Init(s)
    ensures Inv(s)
  {
  }
}
