/** Creating an event makes one ticket per seat, numbered from one, and leaves the sale ready to open. */
module EventCreation {
  import opened Durations
  import opened Tables
  import opened SaleProtocol
  import opened SaleInvariant
  import opened StandingSteps
  import opened SaleRuns
  import opened Cache
  import opened Database

  /** How often `for (let i = 0; i < quantity; i++)` runs. */
  function TicketCount(quantity: real): nat {
    if quantity <= 0.0 then 0
    else if quantity.Floor as real == quantity then quantity.Floor
    else quantity.Floor + 1
  }

  /** It runs for the numbers below the quantity, whole or not, negative or not. */
  lemma CountIsCeiling(quantity: real, i: nat)
    ensures i < TicketCount(quantity) <==> i as real < quantity
  {
    if quantity > 0.0 {
      assert quantity.Floor as real <= quantity < quantity.Floor as real + 1.0;
      if i < quantity.Floor {
        assert i as real < quantity.Floor as real;
      } else if i > quantity.Floor {
        assert i as real >= (quantity.Floor + 1) as real;
      }
    }
  }

  class EventsService {
    const prisma: PrismaService
    const ticketsRepository: TicketsRepository

    ghost predicate Valid() {
      ticketsRepository.prisma == prisma
    }

    constructor (prisma: PrismaService, ticketsRepository: TicketsRepository)
      requires ticketsRepository.prisma == prisma
      ensures Valid() && this.prisma == prisma
    {
      this.prisma, this.ticketsRepository := prisma, ticketsRepository;
    }

    method MapTicketData(quantity: real, price: real, image: string, eventId: Id, uuid: nat -> Id)
      returns (tickets: seq<MappedTicket>)
      ensures |tickets| == TicketCount(quantity)
      ensures forall i: nat | i < |tickets| :: tickets[i] == MappedTicket(eventId, price, i + 1, uuid(i), image)
    {
      tickets := [];
      var i: nat := 0;
      CountIsCeiling(quantity, 0);
      while i as real < quantity
        invariant |tickets| == i <= TicketCount(quantity)
        invariant i < TicketCount(quantity) <==> i as real < quantity
        invariant forall k: nat | k < i :: tickets[k] == MappedTicket(eventId, price, k + 1, uuid(k), image)
        decreases TicketCount(quantity) - i
      {
        var checkInCode := uuid(i);
        tickets := tickets + [MappedTicket(eventId, price, i + 1, checkInCode, image)];
        i := i + 1;
        CountIsCeiling(quantity, i);
      }
    }

    /** One transaction: the event row, then its tickets. `connects` says whether the place exists;
        `fails` that the database rejects the ticket rows. */
    method Create(eventId: Id, kind: EventType, quantity: real, price: real, image: string, uuid: nat -> Id,
                  ids: seq<Id>, connects: bool, fails: bool)
      returns (reply: Reply<nat>)
      requires Valid() && |ids| == TicketCount(quantity)
      modifies prisma
      ensures reply.Ok? <==> connects && !fails
      ensures reply.Err? ==> reply.error == FailedToCreateEvent && prisma.Rows() == old(prisma.Rows())
      ensures reply.Ok? ==> reply.value == TicketCount(quantity)
      ensures reply.Ok? ==>
        prisma.Rows() == WithEvent(old(prisma.Rows()), eventId, kind, TicketRows(eventId, quantity, price, image, uuid, ids))
      ensures reply.Ok? && (forall i: nat, j: nat | i < j < |ids| :: ids[i] != ids[j]) ==>
        StoredWith(old(prisma.Rows()), prisma.Rows(), eventId, kind, price, image, uuid, ids)
    {
      var before := prisma.Rows();
      if !connects {
        return Err(FailedToCreateEvent);
      }
      prisma.events := prisma.events[eventId := kind];
      var mapped := MapTicketData(quantity, price, image, eventId, uuid);
      if fails {
        prisma.Rollback(before);
        return Err(FailedToCreateEvent);
      }
      var count := ticketsRepository.CreateTicketsTx(mapped, ids);
      assert mapped == SeatData(eventId, quantity, price, image, uuid);
      if forall i: nat, j: nat | i < j < |ids| :: ids[i] != ids[j] {
        NewTablesStore(before, eventId, kind, quantity, price, image, uuid, ids);
      }
      reply := Ok(count);
    }
  }

  /** `after` is `before` with one more event of the kind asked for, and a free ticket for each seat, with the price and
      image asked for and a check-in code of its own. */
  ghost predicate StoredWith(before: Db, after: Db, eventId: Id, kind: EventType, price: real, image: string,
                             uuid: nat -> Id, ids: seq<Id>) {
    && after.users == before.users && after.reservations == before.reservations
    && eventId in after.events && after.events[eventId] == kind
    && (forall e :: e in after.events <==> e in before.events || e == eventId)
    && (forall e | e in before.events && e != eventId :: after.events[e] == before.events[e])
    && (forall t :: t in after.tickets <==> t in before.tickets || t in ids)
    && (forall i: nat | i < |ids| :: after.tickets[ids[i]] == TicketRow(eventId, None, price, i + 1, uuid(i), image, true))
    && (forall t | t in before.tickets && t !in ids :: after.tickets[t] == before.tickets[t])
  }

  /** The data of seats 1 to n. */
  function SeatData(eventId: Id, quantity: real, price: real, image: string, uuid: nat -> Id): (data: seq<MappedTicket>)
    ensures |data| == TicketCount(quantity)
  {
    seq(TicketCount(quantity), (i: nat) => MappedTicket(eventId, price, i + 1, uuid(i), image))
  }

  function TicketRows(eventId: Id, quantity: real, price: real, image: string, uuid: nat -> Id, ids: seq<Id>): map<Id, TicketRow>
    requires |ids| == TicketCount(quantity)
  {
    RowsOf(SeatData(eventId, quantity, price, image, uuid), ids)
  }

  lemma {:induction false} RowsById(data: seq<MappedTicket>, ids: seq<Id>)
    requires |data| == |ids|
    requires forall i: nat, j: nat | i < j < |ids| :: ids[i] != ids[j]
    ensures forall t :: t in RowsOf(data, ids) <==> t in ids
    ensures forall i: nat | i < |ids| :: RowsOf(data, ids)[ids[i]] == RowOf(data[i])
    ensures |RowsOf(data, ids)| == |ids|
  {
    if ids != [] {
      var n := |ids| - 1;
      var before := RowsOf(data[..n], ids[..n]);
      RowsById(data[..n], ids[..n]);
      assert ids == ids[..n] + [ids[n]];
      assert ids[n] !in before;
      forall i: nat | i < n ensures RowsOf(data, ids)[ids[i]] == RowOf(data[i]) {
        assert before[ids[..n][i]] == RowOf(data[..n][i]);
      }
    }
  }

  /** Seat number `k` is among the rows. */
  ghost predicate HasSeat(rows: map<Id, TicketRow>, k: nat) {
    exists t :: t in rows && rows[t].seatNumber == k
  }

  /** Row `i` of the ids is seat `i + 1` of the event, free and unlinked, and there are no other rows. */
  ghost predicate InSeatOrder(rows: map<Id, TicketRow>, ids: seq<Id>, eventId: Id) {
    && (forall t :: t in rows <==> t in ids)
    && (forall i: nat | i < |ids| :: rows[ids[i]].seatNumber == i + 1)
    && (forall t | t in rows :: rows[t].eventId == eventId && rows[t].isAvailable && rows[t].reservationId.None?)
  }

  lemma SeatOrderIsNumbering(rows: map<Id, TicketRow>, ids: seq<Id>, eventId: Id)
    requires InSeatOrder(rows, ids, eventId)
    ensures forall k: nat | 1 <= k <= |ids| :: HasSeat(rows, k)
    ensures forall t | t in rows :: 1 <= rows[t].seatNumber <= |ids| && ids[rows[t].seatNumber - 1] == t
  {
    forall k: nat | 1 <= k <= |ids| ensures HasSeat(rows, k) {
      assert ids[k - 1] in rows && rows[ids[k - 1]].seatNumber == k;
    }
    forall t | t in rows ensures 1 <= rows[t].seatNumber <= |ids| && ids[rows[t].seatNumber - 1] == t {
      var i: nat :| i < |ids| && ids[i] == t;
    }
  }

  lemma NewRowsInSeatOrder(eventId: Id, quantity: real, price: real, image: string, uuid: nat -> Id, ids: seq<Id>)
    requires |ids| == TicketCount(quantity)
    requires forall i: nat, j: nat | i < j < |ids| :: ids[i] != ids[j]
    ensures InSeatOrder(TicketRows(eventId, quantity, price, image, uuid, ids), ids, eventId)
    ensures |TicketRows(eventId, quantity, price, image, uuid, ids)| == |ids|
  {
    var data := SeatData(eventId, quantity, price, image, uuid);
    var rows := RowsOf(data, ids);
    RowsById(data, ids);
    forall t | t in rows ensures rows[t].eventId == eventId && rows[t].isAvailable && rows[t].reservationId.None? {
      var i: nat :| i < |ids| && ids[i] == t;
    }
  }

  /** Rows stored under `ids`, one after another. */
  ghost predicate RowsUnder(rows: map<Id, TicketRow>, eventId: Id, price: real, image: string, uuid: nat -> Id, ids: seq<Id>) {
    && (forall t :: t in rows <==> t in ids)
    && (forall i: nat | i < |ids| :: rows[ids[i]] == TicketRow(eventId, None, price, i + 1, uuid(i), image, true))
  }

  lemma NewRowsUnder(eventId: Id, quantity: real, price: real, image: string, uuid: nat -> Id, ids: seq<Id>)
    requires |ids| == TicketCount(quantity)
    requires forall i: nat, j: nat | i < j < |ids| :: ids[i] != ids[j]
    ensures RowsUnder(TicketRows(eventId, quantity, price, image, uuid, ids), eventId, price, image, uuid, ids)
  {
    RowsById(SeatData(eventId, quantity, price, image, uuid), ids);
  }

  lemma RowsUnderStore(db: Db, eventId: Id, kind: EventType, price: real, image: string, uuid: nat -> Id, ids: seq<Id>,
                       rows: map<Id, TicketRow>)
    requires RowsUnder(rows, eventId, price, image, uuid, ids)
    ensures StoredWith(db, WithEvent(db, eventId, kind, rows), eventId, kind, price, image, uuid, ids)
  {
    var after := WithEvent(db, eventId, kind, rows);
    forall i: nat | i < |ids| ensures ids[i] in after.tickets && after.tickets[ids[i]] == rows[ids[i]] {
      assert ids[i] in rows;
    }
  }

  lemma NewTablesStore(db: Db, eventId: Id, kind: EventType, quantity: real, price: real, image: string,
                       uuid: nat -> Id, ids: seq<Id>)
    requires |ids| == TicketCount(quantity)
    requires forall i: nat, j: nat | i < j < |ids| :: ids[i] != ids[j]
    ensures StoredWith(db, WithEvent(db, eventId, kind, TicketRows(eventId, quantity, price, image, uuid, ids)),
                       eventId, kind, price, image, uuid, ids)
  {
    NewRowsUnder(eventId, quantity, price, image, uuid, ids);
    RowsUnderStore(db, eventId, kind, price, image, uuid, ids, TicketRows(eventId, quantity, price, image, uuid, ids));
  }

  lemma SeatNumbersDiffer(rows: map<Id, TicketRow>, ids: seq<Id>, t: Id, u: Id)
    requires forall t | t in rows :: 1 <= rows[t].seatNumber <= |ids| && ids[rows[t].seatNumber - 1] == t
    requires t in rows && u in rows && rows[t].seatNumber == rows[u].seatNumber
    ensures t == u
  {
  }

  /** Seats numbered 1 to n without repeats, all of the event, free and unlinked. */
  ghost predicate Numbered(rows: map<Id, TicketRow>, n: nat, eventId: Id) {
    && |rows| == n
    && (forall t | t in rows :: rows[t].eventId == eventId && rows[t].isAvailable && rows[t].reservationId.None?)
    && (forall k: nat | 1 <= k <= n :: HasSeat(rows, k))
    && (forall t | t in rows :: 1 <= rows[t].seatNumber <= n)
    && (forall t, u | t in rows && u in rows :: rows[t].seatNumber == rows[u].seatNumber ==> t == u)
  }

  lemma SeatOrderIsNumbered(rows: map<Id, TicketRow>, ids: seq<Id>, eventId: Id)
    requires InSeatOrder(rows, ids, eventId) && |rows| == |ids|
    ensures Numbered(rows, |ids|, eventId)
  {
    SeatOrderIsNumbering(rows, ids, eventId);
    forall t, u | t in rows && u in rows && rows[t].seatNumber == rows[u].seatNumber ensures t == u {
      SeatNumbersDiffer(rows, ids, t, u);
    }
  }

  /** The seats of a new event: as many as the quantity rounded up, numbered without repeats. */
  lemma SeatsAreNumbered(eventId: Id, quantity: real, price: real, image: string, uuid: nat -> Id, ids: seq<Id>)
    requires |ids| == TicketCount(quantity)
    requires forall i: nat, j: nat | i < j < |ids| :: ids[i] != ids[j]
    ensures Numbered(TicketRows(eventId, quantity, price, image, uuid, ids), TicketCount(quantity), eventId)
  {
    NewRowsInSeatOrder(eventId, quantity, price, image, uuid, ids);
    SeatOrderIsNumbered(TicketRows(eventId, quantity, price, image, uuid, ids), ids, eventId);
  }

  /** Ids nobody has used: for the event, and one for each seat. */
  ghost predicate FreshIds(s: State, eventId: Id, ids: seq<Id>) {
    && eventId !in s.db.events && (forall q | q in s.standing :: s.standing[q].eventId != eventId)
    && (forall i: nat, j: nat | i < j < |ids| :: ids[i] != ids[j])
    && (forall t | t in ids :: t !in s.db.tickets)
    && (forall r | r in s.calls :: TicketOf(s.calls, r) !in ids)
  }

  lemma NewRowsAreFresh(s: State, eventId: Id, quantity: real, price: real, image: string, uuid: nat -> Id, ids: seq<Id>)
    requires |ids| == TicketCount(quantity) && FreshIds(s, eventId, ids)
    ensures FreshEvent(s, eventId, TicketRows(eventId, quantity, price, image, uuid, ids))
  {
    NewRowsInSeatOrder(eventId, quantity, price, image, uuid, ids);
  }

  /** Creating an event at any moment of the sale is a step of the protocol that keeps the invariant; it makes
      the tables the ones `Create` stores, with all seats of the event on sale. */
  lemma CreationKeepsTheSale(s: State, eventId: Id, kind: EventType, quantity: real, price: real, image: string,
                             uuid: nat -> Id, ids: seq<Id>)
    requires Inv(s) && |ids| == TicketCount(quantity) && FreshIds(s, eventId, ids)
    ensures var rows := TicketRows(eventId, quantity, price, image, uuid, ids);
      var a := CreateEvent(eventId, kind, rows);
      && Enabled(s, a) && Inv(Apply(s, a))
      && Apply(s, a).db == WithEvent(s.db, eventId, kind, rows)
      && FreeTickets(Apply(s, a).db, eventId) == rows.Keys && |rows| == TicketCount(quantity)
      && StoredWith(s.db, Apply(s, a).db, eventId, kind, price, image, uuid, ids)
  {
    var rows := TicketRows(eventId, quantity, price, image, uuid, ids);
    NewRowsAreFresh(s, eventId, quantity, price, image, uuid, ids);
    NewEventKeepsInv(s, eventId, kind, rows);
    NewRowsInSeatOrder(eventId, quantity, price, image, uuid, ids);
    NewSeatsAreFree(s, eventId, kind, rows);
    NewTablesStore(s.db, eventId, kind, quantity, price, image, uuid, ids);
  }

  lemma NewSeatsAreFree(s: State, eventId: Id, kind: EventType, rows: map<Id, TicketRow>)
    requires TablesInv(s.db, s.redelivered) && FreshEvent(s, eventId, rows)
    ensures FreeTickets(WithEvent(s.db, eventId, kind, rows), eventId) == rows.Keys
  {
  }

  /** The first event of an empty shop opens the sale in a state that satisfies its invariant. */
  lemma FirstEventOpensTheSale(users: set<Id>, eventId: Id, kind: EventType, quantity: real, price: real, image: string,
                               uuid: nat -> Id, ids: seq<Id>, now: nat, workers: nat)
    requires |ids| == TicketCount(quantity) && workers >= 1
    requires forall i: nat, j: nat | i < j < |ids| :: ids[i] != ids[j]
    ensures var rows := TicketRows(eventId, quantity, price, image, uuid, ids);
      var db := WithEvent(Db(users, map[], map[], map[]), eventId, kind, rows);
      Init(State(now, map[], map[], map[], map[], Schedule([], map[], map[], now, now, workers), map[], map[], db, 0))
      && |db.tickets| == TicketCount(quantity)
  {
    var rows := TicketRows(eventId, quantity, price, image, uuid, ids);
    var empty := Db(users, map[], map[], map[]);
    SeatsAreNumbered(eventId, quantity, price, image, uuid, ids);
    NewRowsKeepConsistent(empty, eventId, kind, rows);
    assert SoldTickets(empty) == {};
    assert WithEvent(empty, eventId, kind, rows).tickets == rows;
  }
}
