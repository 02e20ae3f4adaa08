/** What the tables never lose: over every run, a stored ticket keeps everything but its availability and its
    reservation, and stored events and reservations keep everything. */
module Records {
  import opened Tables
  import opened SaleProtocol

  /** The columns of a ticket that no sale touches. */
  predicate SameSeat(row: TicketRow, row': TicketRow) {
    && row'.eventId == row.eventId && row'.price == row.price && row'.seatNumber == row.seatNumber
    && row'.checkInCode == row.checkInCode && row'.image == row.image
  }

  /** What `db` has stored is still stored in `db'`. */
  ghost predicate Kept(db: Db, db': Db) {
    && db'.users == db.users
    && (forall e | e in db.events :: e in db'.events && db'.events[e] == db.events[e])
    && (forall t | t in db.tickets :: t in db'.tickets && SameSeat(db.tickets[t], db'.tickets[t]))
    && (forall r | r in db.reservations :: r in db'.reservations && db'.reservations[r] == db.reservations[r])
  }

  /** The step commits a sale of `t`, on either route. */
  predicate Sells(s: State, a: Action, t: Id) {
    || (a.Worker? && Commits(a.work) && a.work.r in s.jobs && s.jobs[a.work.r].booking.ticketId == t)
    || (a.Standing? && a.move.CommitSale? && a.q in s.standing && s.standing[a.q].phase == Committing(t))
  }

  lemma SaleKeepsRecords(db: Db, b: Booking, id: Id)
    requires SaleTransaction(db, b, id).Some?
    ensures Kept(db, SaleTransaction(db, b, id).value)
  {
    SaleWritesExactly(db, b, id);
  }

  lemma NewEventKeepsRecords(s: State, e: Id, kind: EventType, rows: map<Id, TicketRow>)
    requires FreshEvent(s, e, rows)
    ensures Kept(s.db, WithEvent(s.db, e, kind, rows))
  {
  }

  lemma StepKeepsRecords(s: State, a: Action)
    requires Enabled(s, a)
    ensures Kept(s.db, Apply(s, a).db)
  {
    match a
    case Worker(step) =>
      if Commits(step) {
        SaleKeepsRecords(s.db, s.jobs[step.r].booking, step.sale.value);
      }
    case Standing(q, step) =>
      if step.CommitSale? {
        var c := s.standing[q];
        SaleKeepsRecords(s.db, Booking(c.userId, c.phase.ticketId, c.eventId), step.id);
      }
    case CreateEvent(e, kind, rows) => NewEventKeepsRecords(s, e, kind, rows);
    case _ =>
  }

  /** A ticket's row changes only when a sale of that very ticket commits. */
  lemma OnlyOwnSaleChangesRow(s: State, a: Action, t: Id)
    requires Enabled(s, a) && t in s.db.tickets && !Sells(s, a, t)
    ensures t in Apply(s, a).db.tickets && Apply(s, a).db.tickets[t] == s.db.tickets[t]
  {
    match a
    case Worker(step) =>
      if Commits(step) {
        SaleWritesExactly(s.db, s.jobs[step.r].booking, step.sale.value);
      }
    case Standing(q, step) =>
      if step.CommitSale? {
        var c := s.standing[q];
        SaleWritesExactly(s.db, Booking(c.userId, c.phase.ticketId, c.eventId), step.id);
      }
    case _ =>
  }

  lemma StepKeepsRecordsAt(states: seq<State>, acts: seq<Action>, k: nat)
    requires Run(states, acts) && k < |acts|
    ensures Kept(states[k].db, states[k + 1].db)
  {
    assert StepAt(states, acts, k);
    StepKeepsRecords(states[k], acts[k]);
  }

  lemma KeptTwice(a: Db, b: Db, c: Db)
    requires Kept(a, b) && Kept(b, c)
    ensures Kept(a, c)
  {
  }

  /** Over every run, a stored ticket keeps its event, price, seat number, check-in code and image for ever, a stored
      event its kind, and a stored reservation its event and user. */
  lemma {:induction false} RecordsStay(states: seq<State>, acts: seq<Action>, i: nat, j: nat)
    requires Run(states, acts) && i <= j <= |acts|
    ensures Kept(states[i].db, states[j].db)
    decreases j
  {
    if i < j {
      var k := j - 1;
      RecordsStay(states, acts, i, k);
      StepKeepsRecordsAt(states, acts, k);
      KeptTwice(states[i].db, states[k].db, states[j].db);
    }
  }

  predicate SellsAt(states: seq<State>, acts: seq<Action>, t: Id, k: nat) {
    k < |states| && k < |acts| && Sells(states[k], acts[k], t)
  }

  lemma RowStaysAt(states: seq<State>, acts: seq<Action>, t: Id, k: nat)
    requires Run(states, acts) && k < |acts| && t in states[k].db.tickets && !SellsAt(states, acts, t, k)
    ensures t in states[k + 1].db.tickets && states[k + 1].db.tickets[t] == states[k].db.tickets[t]
  {
    assert StepAt(states, acts, k);
    OnlyOwnSaleChangesRow(states[k], acts[k], t);
  }

  /** Over every run, a ticket's row is exactly as it was while no sale of that ticket commits. */
  lemma {:induction false} UnsoldRowStays(states: seq<State>, acts: seq<Action>, t: Id, i: nat, j: nat)
    requires Run(states, acts) && i <= j <= |acts| && t in states[i].db.tickets
    requires forall k: nat | i <= k < j :: !SellsAt(states, acts, t, k)
    ensures t in states[j].db.tickets && states[j].db.tickets[t] == states[i].db.tickets[t]
    decreases j
  {
    if i < j {
      var k := j - 1;
      UnsoldRowStays(states, acts, t, i, k);
      RowStaysAt(states, acts, t, k);
    }
  }
}
