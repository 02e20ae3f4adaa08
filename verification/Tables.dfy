/** The SQL tables both sale routes write, and the two transactions that write them. */
module Tables {
  import opened Durations

  /** A uuid. */
  datatype Id = Id(text: string)

  datatype EventType = SEATING | STANDING

  datatype TicketRow = TicketRow(
    eventId: Id,
    reservationId: Option<Id>,
    price: real,
    seatNumber: nat,
    checkInCode: Id,
    image: string,
    isAvailable: bool)

  datatype ReservationRow = ReservationRow(eventId: Id, userId: Id)

  datatype Db = Db(
    users: set<Id>,
    events: map<Id, EventType>,
    tickets: map<Id, TicketRow>,
    reservations: map<Id, ReservationRow>)

  /** What a seating request asks for; also the data of the job it enqueues. */
  datatype Booking = Booking(userId: Id, ticketId: Id, eventId: Id)

  // ---- Statements of a transaction; None is an error that aborts it ----

  /** Insert a reservation connected to an existing event and an existing user. */
  function CreateReservation(db: Db, eventId: Id, userId: Id, id: Id): Option<Db> {
    if eventId in db.events && userId in db.users && id !in db.reservations
    then Some(db.(reservations := db.reservations[id := ReservationRow(eventId, userId)]))
    else None
  }

  /** Update a ticket row, whatever it holds, to unavailable and connected to a reservation. */
  function ReserveTicket(db: Db, ticketId: Id, reservationId: Id): Option<Db> {
    if ticketId in db.tickets && reservationId in db.reservations
    then Some(db.(tickets := db.tickets[ticketId :=
           db.tickets[ticketId].(isAvailable := false, reservationId := Some(reservationId))]))
    else None
  }

  /** The two writes of ReservationConsumer.process, all or nothing; createStanding makes the same
      two, for the ticket its find-first query returned. */
  function SaleTransaction(db: Db, b: Booking, id: Id): Option<Db> {
    var created := CreateReservation(db, b.eventId, b.userId, id);
    if created.None? then None else ReserveTicket(created.value, b.ticketId, id)
  }

  // ---- What the rows say ----

  /** What find-first by id returns. */
  function TicketIn(db: Db, t: Id): (found: Option<TicketRow>)
    ensures found.Some? <==> t in db.tickets
    ensures found.Some? ==> found.value == db.tickets[t]
  {
    if t in db.tickets then Some(db.tickets[t]) else None
  }

  predicate Available(db: Db, t: Id) {
    t in db.tickets && db.tickets[t].isAvailable
  }

  /** Unavailable, and linked to a reservation that exists. */
  predicate IsSold(db: Db, t: Id) {
    && t in db.tickets && !db.tickets[t].isAvailable
    && db.tickets[t].reservationId.Some?
    && db.tickets[t].reservationId.value in db.reservations
  }

  function OwnerOf(db: Db, t: Id): Id
    requires IsSold(db, t)
  {
    db.reservations[db.tickets[t].reservationId.value].userId
  }

  predicate SoldTo(db: Db, t: Id, u: Id) {
    IsSold(db, t) && OwnerOf(db, t) == u
  }

  function SoldTickets(db: Db): set<Id> {
    set t | t in db.tickets && !db.tickets[t].isAvailable
  }

  function FreeTickets(db: Db, e: Id): (free: set<Id>)
    ensures forall t :: t in free <==> t in db.tickets && db.tickets[t].isAvailable && db.tickets[t].eventId == e
  {
    set t | t in db.tickets && db.tickets[t].isAvailable && db.tickets[t].eventId == e
  }

  /** Unavailable exactly when linked, links resolve, and no reservation is linked twice. */
  ghost predicate Consistent(db: Db) {
    && (forall t :: t in db.tickets ==>
          && (db.tickets[t].isAvailable <==> db.tickets[t].reservationId.None?)
          && (db.tickets[t].reservationId.Some? ==> db.tickets[t].reservationId.value in db.reservations))
    && (forall t, u | t in db.tickets && u in db.tickets && db.tickets[t].reservationId.Some? ::
          db.tickets[t].reservationId == db.tickets[u].reservationId ==> t == u)
  }

  /** Event, user and ticket exist, and the reservation id is fresh. */
  predicate CanBeSold(db: Db, b: Booking, id: Id) {
    b.eventId in db.events && b.userId in db.users && b.ticketId in db.tickets && id !in db.reservations
  }

  /** When a sale goes through, and all it writes: the reservation, and two columns of the ticket's row. */
  lemma SaleWritesExactly(db: Db, b: Booking, id: Id)
    ensures SaleTransaction(db, b, id).Some?
       <==> b.eventId in db.events && b.userId in db.users && b.ticketId in db.tickets && id !in db.reservations
    ensures SaleTransaction(db, b, id).Some? ==> SaleOf(db, SaleTransaction(db, b, id).value, b, id)
  {
  }

  /** `d` is `db` after a sale. */
  ghost predicate SaleOf(db: Db, d: Db, b: Booking, id: Id) {
    && d.users == db.users && d.events == db.events
    && d.reservations == db.reservations[id := ReservationRow(b.eventId, b.userId)]
    && d.tickets.Keys == db.tickets.Keys && b.ticketId in db.tickets
    && (forall t | t in db.tickets && t != b.ticketId :: d.tickets[t] == db.tickets[t])
    && d.tickets[b.ticketId] == SoldRow(db.tickets[b.ticketId], id)
  }

  /** A sold row: the seat it was, now unavailable and linked. */
  function SoldRow(row: TicketRow, id: Id): (sold: TicketRow)
    ensures sold.eventId == row.eventId && sold.price == row.price && sold.seatNumber == row.seatNumber
    ensures sold.checkInCode == row.checkInCode && sold.image == row.image
    ensures !sold.isAvailable && sold.reservationId == Some(id)
  {
    TicketRow(row.eventId, Some(id), row.price, row.seatNumber, row.checkInCode, row.image, false)
  }

  lemma SaleCounts(db: Db, b: Booking, id: Id)
    requires SaleTransaction(db, b, id).Some?
    ensures var d := SaleTransaction(db, b, id).value;
      && |d.reservations| == |db.reservations| + 1
      && |SoldTickets(d)| == |SoldTickets(db)| + (if Available(db, b.ticketId) then 1 else 0)
  {
    var d := SaleTransaction(db, b, id).value;
    assert d.reservations.Keys == db.reservations.Keys + {id};
    assert SoldTickets(d) == SoldTickets(db) + {b.ticketId};
    if !Available(db, b.ticketId) {
      assert SoldTickets(d) == SoldTickets(db);
    }
  }

  /** A sale keeps the tables consistent, adds a reservation, and adds a sold ticket if its ticket was available. */
  lemma SaleKeepsConsistent(db: Db, b: Booking, id: Id)
    requires Consistent(db)
    requires SaleTransaction(db, b, id).Some?
    ensures var d := SaleTransaction(db, b, id).value;
      && Consistent(d)
      && SoldTo(d, b.ticketId, b.userId)
      && |d.reservations| == |db.reservations| + 1
      && |SoldTickets(d)| == |SoldTickets(db)| + (if Available(db, b.ticketId) then 1 else 0)
  {
    SaleCounts(db, b, id);
  }

  /** A sale, even of a ticket already sold, changes one ticket row and no reservation row. */
  lemma SaleTouchesOneTicket(db: Db, b: Booking, id: Id, t: Id, u: Id)
    requires SaleTransaction(db, b, id).Some?
    ensures var d := SaleTransaction(db, b, id).value;
      && SoldTo(d, b.ticketId, b.userId)
      && (t != b.ticketId ==> (Available(d, t) <==> Available(db, t)) && (SoldTo(db, t, u) ==> SoldTo(d, t, u)))
  {
  }

  /** When counts agree, every reservation is the reservation of exactly one ticket. */
  lemma EveryReservationHasOneTicket(db: Db, r: Id)
    requires Consistent(db) && |db.reservations| == |SoldTickets(db)|
    requires r in db.reservations
    ensures exists t :: t in SoldTickets(db) && db.tickets[t].reservationId == Some(r)
    ensures forall t, u | t in db.tickets && u in db.tickets && db.tickets[t].reservationId == Some(r) ::
      db.tickets[u].reservationId == Some(r) ==> t == u
  {
    var linked := LinkedReservations(db, SoldTickets(db));
    LinkedSize(db, SoldTickets(db));
    assert linked <= db.reservations.Keys;
    SameSizeSubset(linked, db.reservations.Keys);
  }

  ghost function LinkedReservations(db: Db, ts: set<Id>): set<Id>
    requires ts <= SoldTickets(db) && Consistent(db)
  {
    set t | t in ts :: db.tickets[t].reservationId.value
  }

  lemma {:induction false} LinkedSize(db: Db, ts: set<Id>)
    requires ts <= SoldTickets(db) && Consistent(db)
    ensures |LinkedReservations(db, ts)| == |ts|
  {
    if ts != {} {
      var t :| t in ts;
      LinkedSize(db, ts - {t});
      assert LinkedReservations(db, ts)
          == LinkedReservations(db, ts - {t}) + {db.tickets[t].reservationId.value};
    }
  }

  lemma {:induction false} SubsetSize<T>(a: set<T>, b: set<T>)
    requires a <= b
    ensures |a| <= |b|
  {
    if a != {} {
      var x :| x in a;
      SubsetSize(a - {x}, b - {x});
    }
  }

  lemma SameSizeSubset<T>(a: set<T>, b: set<T>)
    requires a <= b && |a| == |b|
    ensures a == b
  {
    assert a * b == a;
    assert |b - a| == 0;
  }
}
