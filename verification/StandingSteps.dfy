/** Every step keeps the invariant of the standing route, and a standing sale keeps that of the
    seating route: the two routes sell tickets of different events. */
module StandingSteps {
  import opened Durations
  import opened Tables
  import opened SaleProtocol
  import opened SaleInvariant

  lemma EventLocksKept(now: nat, eventLeases: map<Id, Lease>, standing: map<nat, StandingCall>, db: Db, q: nat, step: StandingStep)
    requires EventLocksInv(now, eventLeases, standing) && StandingCan(now, eventLeases, standing, db, q, step)
    ensures EventLocksInv(now, EventLeasesAfter(now, eventLeases, standing, q, step),
                          standing[q := StandingCallAfter(now, standing, q, step)])
  {
  }

  /** What a sale of an available ticket of event `e` changes: `e` has one free ticket fewer, other events as many. */
  lemma SaleTakesOneFreeTicket(db: Db, b: Booking, id: Id, e: Id)
    requires SaleTransaction(db, b, id).Some? && b.ticketId in FreeTickets(db, e)
    ensures FreeTickets(SaleTransaction(db, b, id).value, e) == FreeTickets(db, e) - {b.ticketId}
  {
  }

  lemma SaleLeavesOtherEvents(db: Db, b: Booking, id: Id, e: Id)
    requires SaleTransaction(db, b, id).Some? && db.tickets[b.ticketId].eventId != e
    ensures FreeTickets(SaleTransaction(db, b, id).value, e) == FreeTickets(db, e)
  {
  }

  /** A sale of another ticket leaves a standing call's purchase, its choice and its refusal valid. */
  lemma SaleInvKeptBySale(now: nat, db: Db, c: StandingCall, b: Booking, id: Id)
    requires SaleInv(now, db, c) && SaleTransaction(db, b, id).Some?
    requires c.bought != Some(b.ticketId)
    requires c.phase.Committing? && now < c.lockedAt + LEASE ==> c.phase.ticketId != b.ticketId
    ensures SaleInv(now, SaleTransaction(db, b, id).value, c)
  {
    var d := SaleTransaction(db, b, id).value;
    assert FreeTickets(d, c.eventId) == FreeTickets(db, c.eventId) - {b.ticketId};
  }

  /** The caller of a standing step, after it. */
  lemma OwnSaleKept(now: nat, eventLeases: map<Id, Lease>, standing: map<nat, StandingCall>, db: Db, q: nat, step: StandingStep)
    requires StandingInv(now, eventLeases, standing, db) && StandingCan(now, eventLeases, standing, db, q, step)
    requires step.CommitSale? ==> now < standing[q].lockedAt + LEASE
    ensures SaleInv(now, StandingDb(db, standing, q, step), StandingCallAfter(now, standing, q, step))
  {
  }

  /** Any other standing call, after the step: same event means the lease belongs to `q`. */
  lemma OtherSalesKept(now: nat, eventLeases: map<Id, Lease>, standing: map<nat, StandingCall>, db: Db,
                       q: nat, step: StandingStep, p: nat)
    requires StandingInv(now, eventLeases, standing, db) && StandingCan(now, eventLeases, standing, db, q, step)
    requires step.CommitSale? ==> now < standing[q].lockedAt + LEASE
    requires p in standing && p != q
    ensures SaleInv(now, StandingDb(db, standing, q, step), standing[p])
    ensures step.CommitSale? ==> standing[p].bought != Some(standing[q].phase.ticketId)
  {
    if step.CommitSale? {
      var c := standing[q];
      var b := Booking(c.userId, c.phase.ticketId, c.eventId);
      assert Available(db, b.ticketId);
      SaleInvKeptBySale(now, db, standing[p], b, step.id);
    }
  }

  lemma StandingKept(now: nat, eventLeases: map<Id, Lease>, standing: map<nat, StandingCall>, db: Db, q: nat, step: StandingStep)
    requires StandingInv(now, eventLeases, standing, db) && StandingCan(now, eventLeases, standing, db, q, step)
    requires step.CommitSale? ==> now < standing[q].lockedAt + LEASE
    ensures StandingInv(now, EventLeasesAfter(now, eventLeases, standing, q, step),
                        standing[q := StandingCallAfter(now, standing, q, step)], StandingDb(db, standing, q, step))
  {
    EventLocksKept(now, eventLeases, standing, db, q, step);
    OwnSaleKept(now, eventLeases, standing, db, q, step);
    forall p | p in standing && p != q
      ensures SaleInv(now, StandingDb(db, standing, q, step), standing[p])
      ensures step.CommitSale? ==> standing[p].bought != Some(standing[q].phase.ticketId)
    {
      OtherSalesKept(now, eventLeases, standing, db, q, step, p);
    }
  }

  /** A seating sale leaves every standing call's facts alone. */
  lemma StandingKeptBySeatingSale(now: nat, eventLeases: map<Id, Lease>, standing: map<nat, StandingCall>, db: Db,
                                  b: Booking, id: Id)
    requires StandingInv(now, eventLeases, standing, db) && SaleTransaction(db, b, id).Some?
    requires SeatingRequest(db, b.ticketId)
    ensures StandingInv(now, eventLeases, standing, SaleTransaction(db, b, id).value)
  {
    forall q | q in standing ensures SaleInv(now, SaleTransaction(db, b, id).value, standing[q]) {
      SaleInvKeptBySale(now, db, standing[q], b, id);
    }
  }

  /** A standing sale leaves every seating call's facts alone. */
  lemma SeatingKeptByStandingSale(now: nat, leases: map<Id, Lease>, flags: map<Id, nat>, calls: map<nat, Call>,
                                  jobs: map<nat, Job>, db: Db, b: Booking, id: Id)
    requires SeatingInv(now, leases, flags, calls, jobs, db) && SaleTransaction(db, b, id).Some?
    requires db.tickets[b.ticketId].eventId in db.events && db.events[db.tickets[b.ticketId].eventId].STANDING?
    ensures SeatingInv(now, leases, flags, calls, jobs, SaleTransaction(db, b, id).value)
  {
    var d := SaleTransaction(db, b, id).value;
    forall r | r in calls ensures TicketOf(calls, r) != b.ticketId {}
    forall r | r in jobs && jobs[r].committed ensures SoldTo(d, jobs[r].booking.ticketId, jobs[r].booking.userId) {
      SaleTouchesOneTicket(db, b, id, jobs[r].booking.ticketId, jobs[r].booking.userId);
    }
  }

  // ---- A new event ----

  /** The new rows leave the old ones, and what is known of them, alone. */
  lemma OldRowsStay(db: Db, e: Id, kind: EventType, rows: map<Id, TicketRow>, t: Id, u: Id)
    requires t in db.tickets && t !in rows
    ensures TicketIn(WithEvent(db, e, kind, rows), t) == TicketIn(db, t)
    ensures SoldTo(db, t, u) ==> SoldTo(WithEvent(db, e, kind, rows), t, u)
  {
  }

  lemma ClaimsKeptByNewEvent(s: State, e: Id, kind: EventType, rows: map<Id, TicketRow>)
    requires FreshEvent(s, e, rows)
    requires ClaimsInv(s.now, s.flags, s.calls, s.jobs, s.db) && ChecksInv(s.now, s.flags, s.calls, s.jobs, s.db)
    ensures ClaimsInv(s.now, s.flags, s.calls, s.jobs, WithEvent(s.db, e, kind, rows))
    ensures ChecksInv(s.now, s.flags, s.calls, s.jobs, WithEvent(s.db, e, kind, rows))
  {
  }

  lemma CommitsKeptByNewEvent(s: State, e: Id, kind: EventType, rows: map<Id, TicketRow>)
    requires FreshEvent(s, e, rows) && CommitsInv(s.jobs, s.db)
    ensures CommitsInv(s.jobs, WithEvent(s.db, e, kind, rows))
  {
    forall r | r in s.jobs && s.jobs[r].committed
      ensures SoldTo(WithEvent(s.db, e, kind, rows), s.jobs[r].booking.ticketId, s.jobs[r].booking.userId)
    {
      OldRowsStay(s.db, e, kind, rows, s.jobs[r].booking.ticketId, s.jobs[r].booking.userId);
    }
  }

  lemma RequestsKeptByNewEvent(s: State, e: Id, kind: EventType, rows: map<Id, TicketRow>)
    requires FreshEvent(s, e, rows) && RequestsInv(s.calls, s.db) && FlagsInv(s.flags, s.db)
    ensures RequestsInv(s.calls, WithEvent(s.db, e, kind, rows)) && FlagsInv(s.flags, WithEvent(s.db, e, kind, rows))
  {
  }

  lemma SeatingKeptByNewEvent(s: State, e: Id, kind: EventType, rows: map<Id, TicketRow>)
    requires SeatingInv(s.now, s.leases, s.flags, s.calls, s.jobs, s.db) && FreshEvent(s, e, rows)
    ensures SeatingInv(s.now, s.leases, s.flags, s.calls, s.jobs, WithEvent(s.db, e, kind, rows))
  {
    ClaimsKeptByNewEvent(s, e, kind, rows);
    CommitsKeptByNewEvent(s, e, kind, rows);
    RequestsKeptByNewEvent(s, e, kind, rows);
  }

  lemma StandingKeptByNewEvent(s: State, e: Id, kind: EventType, rows: map<Id, TicketRow>)
    requires StandingInv(s.now, s.eventLeases, s.standing, s.db) && FreshEvent(s, e, rows)
    ensures StandingInv(s.now, s.eventLeases, s.standing, WithEvent(s.db, e, kind, rows))
  {
    forall q | q in s.standing ensures FreeTickets(WithEvent(s.db, e, kind, rows), s.standing[q].eventId)
                                    == FreeTickets(s.db, s.standing[q].eventId)
    {
    }
  }

  lemma NewRowsKeepConsistent(db: Db, e: Id, kind: EventType, rows: map<Id, TicketRow>)
    requires Consistent(db)
    requires forall t | t in rows :: t !in db.tickets && rows[t].isAvailable && rows[t].reservationId.None?
    ensures Consistent(WithEvent(db, e, kind, rows))
    ensures SoldTickets(WithEvent(db, e, kind, rows)) == SoldTickets(db)
  {
    var d := WithEvent(db, e, kind, rows);
    forall t | t in d.tickets && d.tickets[t].reservationId.Some?
      ensures t in db.tickets && d.tickets[t] == db.tickets[t]
    {
    }
  }

  lemma TablesKeptByNewEvent(s: State, e: Id, kind: EventType, rows: map<Id, TicketRow>)
    requires TablesInv(s.db, s.redelivered) && FreshEvent(s, e, rows)
    ensures TablesInv(WithEvent(s.db, e, kind, rows), s.redelivered)
  {
    NewRowsKeepConsistent(s.db, e, kind, rows);
  }
}
