/** The tables as the repositories change them in place, and transactions that roll back. */
module Database {
  import opened Durations
  import opened Tables

  class PrismaService {
    var users: set<Id>
    var events: map<Id, EventType>
    var tickets: map<Id, TicketRow>
    var reservations: map<Id, ReservationRow>

    function Rows(): Db
      reads this
    {
      Db(users, events, tickets, reservations)
    }

    constructor (db: Db)
      ensures Rows() == db
    {
      users, events, tickets, reservations := db.users, db.events, db.tickets, db.reservations;
    }

    /** What an aborted transaction does to the rows it has written. */
    method Rollback(before: Db)
      modifies this
      ensures Rows() == before
    {
      users, events, tickets, reservations := before.users, before.events, before.tickets, before.reservations;
    }
  }

  /** A row of createMany; the other columns take their defaults. */
  datatype MappedTicket = MappedTicket(eventId: Id, price: real, seatNumber: nat, checkInCode: Id, image: string)

  function RowOf(m: MappedTicket): TicketRow {
    TicketRow(m.eventId, None, m.price, m.seatNumber, m.checkInCode, m.image, true)
  }

  /** The rows createMany inserts under the ids the database generates. */
  function RowsOf(data: seq<MappedTicket>, ids: seq<Id>): map<Id, TicketRow>
    requires |data| == |ids|
  {
    if ids == [] then map[]
    else RowsOf(data[..|ids| - 1], ids[..|ids| - 1])[ids[|ids| - 1] := RowOf(data[|ids| - 1])]
  }

  class TicketsRepository {
    const prisma: PrismaService

    constructor (prisma: PrismaService)
      ensures this.prisma == prisma
    {
      this.prisma := prisma;
    }

    method CreateTicketsTx(data: seq<MappedTicket>, ids: seq<Id>) returns (count: nat)
      requires |data| == |ids|
      modifies prisma`tickets
      ensures prisma.tickets == old(prisma.tickets) + RowsOf(data, ids)
      ensures count == |data|
    {
      prisma.tickets := prisma.tickets + RowsOf(data, ids);
      count := |data|;
    }

    method FindTicketByTicketId(ticketId: Id) returns (found: Option<TicketRow>)
      ensures found.Some? <==> ticketId in prisma.tickets
      ensures found.Some? ==> found.value == prisma.tickets[ticketId]
    {
      found := if ticketId in prisma.tickets then Some(prisma.tickets[ticketId]) else None;
    }

    /** The first available ticket of the event in whatever order the database has. */
    method FindStandingTicketTX(eventId: Id) returns (found: Option<Id>)
      ensures found.Some? ==>
        && found.value in prisma.tickets && prisma.tickets[found.value].isAvailable
        && prisma.tickets[found.value].eventId == eventId
      ensures found.None? ==> forall t | t in prisma.tickets && prisma.tickets[t].eventId == eventId :: !prisma.tickets[t].isAvailable
    {
      var free := FreeTickets(prisma.Rows(), eventId);
      if free == {} {
        found := None;
      } else {
        var t :| t in free;
        found := Some(t);
      }
    }

    /** The update both routes make: it does not look at what the row holds. */
    method ReserveTicketTX(ticketId: Id, reservationId: Id) returns (ok: bool)
      modifies prisma`tickets
      ensures ok <==> ticketId in old(prisma.tickets) && reservationId in prisma.reservations
      ensures ok ==>
        && prisma.tickets.Keys == old(prisma.tickets).Keys
        && (forall t | t in prisma.tickets && t != ticketId :: prisma.tickets[t] == old(prisma.tickets)[t])
        && prisma.tickets[ticketId] == SoldRow(old(prisma.tickets)[ticketId], reservationId)
      ensures ok == ReserveTicket(old(prisma.Rows()), ticketId, reservationId).Some?
      ensures prisma.Rows() == if ok then ReserveTicket(old(prisma.Rows()), ticketId, reservationId).value else old(prisma.Rows())
    {
      ok := ticketId in prisma.tickets && reservationId in prisma.reservations;
      if ok {
        var row := prisma.tickets[ticketId];
        prisma.tickets := prisma.tickets[ticketId := row.(isAvailable := false, reservationId := Some(reservationId))];
      }
    }
  }

  class ReservationsRepository {
    const prisma: PrismaService

    constructor (prisma: PrismaService)
      ensures this.prisma == prisma
    {
      this.prisma := prisma;
    }

    /** Inserts a reservation under the generated id; fails when a row it connects to is missing. */
    method CreateReservationTX(eventId: Id, userId: Id, id: Id) returns (ok: bool)
      modifies prisma`reservations
      ensures ok <==> eventId in prisma.events && userId in prisma.users && id !in old(prisma.reservations)
      ensures ok ==> prisma.reservations == old(prisma.reservations)[id := ReservationRow(eventId, userId)]
      ensures ok == CreateReservation(old(prisma.Rows()), eventId, userId, id).Some?
      ensures prisma.Rows() == if ok then CreateReservation(old(prisma.Rows()), eventId, userId, id).value else old(prisma.Rows())
    {
      ok := eventId in prisma.events && userId in prisma.users && id !in prisma.reservations;
      if ok {
        prisma.reservations := prisma.reservations[id := ReservationRow(eventId, userId)];
      }
    }
  }
}
