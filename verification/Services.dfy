/** The services as they run on the shared stores. Each contract says where the call ends in the protocol, and
    which step of the history explains its answer. */
module Services {
  import opened Durations
  import opened Tables
  import opened SaleProtocol
  import opened SaleInvariant
  import opened SaleTheorems
  import opened Locking
  import opened Cache
  import opened Database
  import opened SharedPlatform

  // ---- Seating ----

  /** How the remote calls of one request go. An add that does not work adds no job. */
  datatype Network = Network(lock: bool, flagRead: Link, rowRead: Link, flagWrite: Link, add: bool, flagDelete: Link)

  datatype Outcome = Success(ticket: TicketRow) | Refused(message: string) | Thrown(error: Error)

  const TICKET_SOLD_OUT := "ticket sold out"
  const TICKET_NOT_FOUND := "ticket not found"
  const TICKET_NOT_AVAILABLE := "ticket not available"

  /** The protocol's answer for what the caller gets. */
  function AnswerOf(outcome: Outcome): Answer {
    match outcome
    case Success(_) => Granted
    case Refused(m) => if m == TICKET_SOLD_OUT then SoldOut else if m == TICKET_NOT_FOUND then NotFound else NotAvailable
    case Thrown(_) => Failed
  }

  /** The outcome of the check follows what the call read: sold out with the flag up; with the flag down, not found
      without a row, not available with a sold one, and otherwise success with the flag raised. It throws only when a
      read, or the write that these reads lead to, fails. */
  ghost predicate CheckExplained(states: seq<State>, acts: seq<Action>, r: nat, t: Id, net: Network, outcome: Outcome) {
    match outcome
    case Success(ticket) =>
      && Shown(states, acts, FlagSeen(r, t, false)) && Shown(states, acts, RowSeen(r, t, Some(ticket)))
      && ticket.isAvailable && Shown(states, acts, FlagRaised(r))
    case Refused(m) =>
      || (m == "ticket sold out" && Shown(states, acts, FlagSeen(r, t, true)))
      || (m == "ticket not found" && Shown(states, acts, FlagSeen(r, t, false)) && Shown(states, acts, RowSeen(r, t, None)))
      || (m == "ticket not available" && Shown(states, acts, FlagSeen(r, t, false))
          && exists row: TicketRow :: !row.isAvailable && Shown(states, acts, RowSeen(r, t, Some(row))))
    case Thrown(e) =>
      || (e == Unavailable && !net.flagRead.Works?)
      || (e == FailedToFindTicket && !net.rowRead.Works? && Shown(states, acts, FlagSeen(r, t, false)))
      || (e == Unavailable && !net.flagWrite.Works? && Shown(states, acts, FlagSeen(r, t, false))
          && exists row: TicketRow :: row.isAvailable && Shown(states, acts, RowSeen(r, t, Some(row))))
  }

  /** A rejected add: the flag the call raised has been deleted again, unless the delete did not arrive. */
  ghost predicate Undone(states: seq<State>, acts: seq<Action>, r: nat, net: Network, e: Error) {
    && !net.add && Shown(states, acts, FlagRaised(r))
    && e == (if net.flagDelete.Works? then FailedToAddQueue else Unavailable)
    && (!net.flagDelete.Lost? ==> Shown(states, acts, FlagDropped(r)))
  }

  /** The outcome of the whole call: that of the check, with a job added on success; an undone claim; or a lock
      that could not be reached or that somebody else held. */
  ghost predicate SeatingExplained(states: seq<State>, acts: seq<Action>, r: nat, t: Id, net: Network, outcome: Outcome) {
    || (CheckExplained(states, acts, r, t, net, outcome) && (outcome.Success? ==> net.add && Shown(states, acts, JobAdded(r))))
    || (outcome.Thrown? && Undone(states, acts, r, net, outcome.error))
    || (outcome == Thrown(NotLocked) && (net.lock ==> Shown(states, acts, LockHeld(r, t))))
  }

  lemma CheckStaysExplained(xs: seq<State>, bs: seq<Action>, states: seq<State>, acts: seq<Action>,
                            r: nat, t: Id, net: Network, outcome: Outcome)
    requires xs <= states && bs <= acts && CheckExplained(xs, bs, r, t, net, outcome)
    ensures CheckExplained(states, acts, r, t, net, outcome)
  {
    forall fact | Shown(xs, bs, fact) ensures Shown(states, acts, fact) {
      ShownStays(xs, bs, states, acts, fact);
    }
  }

  lemma SeatingStaysExplained(xs: seq<State>, bs: seq<Action>, states: seq<State>, acts: seq<Action>,
                              r: nat, t: Id, net: Network, outcome: Outcome)
    requires xs <= states && bs <= acts && SeatingExplained(xs, bs, r, t, net, outcome)
    ensures SeatingExplained(states, acts, r, t, net, outcome)
  {
    if CheckExplained(xs, bs, r, t, net, outcome) {
      CheckStaysExplained(xs, bs, states, acts, r, t, net, outcome);
    }
    forall fact | Shown(xs, bs, fact) ensures Shown(states, acts, fact) {
      ShownStays(xs, bs, states, acts, fact);
    }
  }

  class TicketsService {
    const platform: Platform
    const cacheService: RedisService
    const ticketsRepository: TicketsRepository

    ghost predicate Wired() {
      cacheService.cacheManager == platform.cache && ticketsRepository.prisma == platform.prisma
    }

    constructor (platform: Platform, cacheService: RedisService, ticketsRepository: TicketsRepository)
      requires cacheService.cacheManager == platform.cache && ticketsRepository.prisma == platform.prisma
      ensures Wired() && this.platform == platform
    {
      this.platform, this.cacheService, this.ticketsRepository := platform, cacheService, ticketsRepository;
    }

    method ReadFlag(ticketId: Id, ghost r: nat, ghost b: Booking, link: Link) returns (reply: Reply<bool>)
      requires Wired() && platform.Valid() && platform.AtPhase(r, ReadingFlag, b) && b.ticketId == ticketId
      modifies platform.Repr()
      ensures platform.GrewFrom(old(platform.states), old(platform.acts))
      ensures platform.AtPhase(r, if reply.Err? then Releasing(Failed) else if reply.value then Releasing(SoldOut) else ReadingRow, b)
      ensures if link.Works? then reply.Ok? && Shown(platform.states, platform.acts, FlagSeen(r, ticketId, reply.value))
              else reply == Err(Unavailable)
    {
      platform.Await(Seat(r));
      reply := cacheService.GetTicketSoldOut(ticketId, platform.now, link);
      if reply.Ok? {
        platform.Showed(Seating(r, CallStep.ReadFlag), FlagSeen(r, ticketId, reply.value));
      } else {
        platform.Took(Seating(r, Fault(false)));
      }
    }

    method ReadRow(ticketId: Id, ghost r: nat, ghost b: Booking, link: Link) returns (reply: Reply<Option<TicketRow>>)
      requires Wired() && platform.Valid() && platform.AtPhase(r, ReadingRow, b) && b.ticketId == ticketId
      modifies platform.Repr()
      ensures platform.GrewFrom(old(platform.states), old(platform.acts))
      ensures platform.AtPhase(r, PhaseAfterRow(reply), b)
      ensures if link.Works? then reply.Ok? && Shown(platform.states, platform.acts, RowSeen(r, ticketId, reply.value))
              else reply == Err(FailedToFindTicket)
    {
      platform.Await(Seat(r));
      if !link.Works? {
        platform.Took(Seating(r, Fault(false)));
        return Err(FailedToFindTicket);
      }
      var ticket := ticketsRepository.FindTicketByTicketId(ticketId);
      platform.Showed(Seating(r, CallStep.ReadRow), RowSeen(r, ticketId, ticket));
      reply := Ok(ticket);
    }

    method WriteFlag(ticketId: Id, ghost r: nat, ghost b: Booking, link: Link) returns (reply: Reply<()>)
      requires Wired() && platform.Valid() && platform.AtPhase(r, WritingFlag, b) && b.ticketId == ticketId
      modifies platform.Repr()
      ensures platform.GrewFrom(old(platform.states), old(platform.acts))
      ensures platform.AtPhase(r, if reply.Err? then Releasing(Failed) else Enqueueing, b)
      ensures if link.Works? then reply.Ok? && Shown(platform.states, platform.acts, FlagRaised(r)) else reply == Err(Unavailable)
    {
      platform.Await(Seat(r));
      reply := SendFlag(ticketId, r, b, link);
    }

    /** The write itself. */
    method SendFlag(ticketId: Id, ghost r: nat, ghost b: Booking, link: Link) returns (reply: Reply<()>)
      requires Wired() && platform.Valid() && platform.AtPhase(r, WritingFlag, b) && b.ticketId == ticketId
      modifies platform`model, platform`states, platform`acts, platform.cache
      ensures platform.GrewFrom(old(platform.states), old(platform.acts))
      ensures platform.AtPhase(r, if reply.Err? then Releasing(Failed) else Enqueueing, b)
      ensures if link.Works? then reply.Ok? && Shown(platform.states, platform.acts, FlagRaised(r)) else reply == Err(Unavailable)
    {
      RaisedFlagHeld(platform.cache.entries, platform.model.flags, ticketId, platform.now + FLAG_TTL);
      reply := cacheService.SetTicketSoldOut(ticketId, platform.now, link);
      RecordWrite(r, b, link);
    }

    /** The step of the protocol that the write is. */
    ghost method RecordWrite(r: nat, b: Booking, link: Link)
      requires platform.HistoryIsRun() && platform.AtPhase(r, WritingFlag, b)
      modifies platform`model, platform`states, platform`acts
      ensures platform.HistoryIsRun() && old(platform.states) <= platform.states && old(platform.acts) <= platform.acts
      ensures platform.model == old(platform.model).(calls := platform.model.calls, flags := platform.model.flags)
      ensures platform.model.flags == if link.Lost? then old(platform.model.flags)
                                      else old(platform.model.flags)[b.ticketId := platform.model.now + FLAG_TTL]
      ensures platform.AtPhase(r, if link.Works? then Enqueueing else Releasing(Failed), b)
      ensures link.Works? ==> Shown(platform.states, platform.acts, FlagRaised(r))
    {
      if link.Works? {
        platform.Showed(Seating(r, CallStep.WriteFlag), FlagRaised(r));
      } else {
        platform.Took(Seating(r, Fault(link.ReplyLost?)));
      }
    }

    /** Reads the flag and the row, and flags the ticket, on behalf of call `r`. */
    method FindTicketByTicketId(ticketId: Id, ghost r: nat, ghost b: Booking, net: Network) returns (outcome: Outcome)
      requires Wired() && platform.Valid() && platform.AtPhase(r, ReadingFlag, b) && b.ticketId == ticketId
      modifies platform.Repr()
      ensures platform.GrewFrom(old(platform.states), old(platform.acts))
      ensures platform.AtPhase(r, if outcome.Success? then Enqueueing else Releasing(AnswerOf(outcome)), b)
      ensures CheckExplained(platform.states, platform.acts, r, ticketId, net, outcome)
    {
      var isTicketSoldOut := ReadFlag(ticketId, r, b, net.flagRead);
      if isTicketSoldOut.Err? {
        return Thrown(isTicketSoldOut.error);
      }
      if isTicketSoldOut.value {
        return Refused(TICKET_SOLD_OUT);
      }
      outcome := FindUnflagged(ticketId, r, b, net);
    }

    /** The rest, when the flag is down. */
    method FindUnflagged(ticketId: Id, ghost r: nat, ghost b: Booking, net: Network) returns (outcome: Outcome)
      requires Wired() && platform.Valid() && platform.AtPhase(r, ReadingRow, b) && b.ticketId == ticketId
      requires Shown(platform.states, platform.acts, FlagSeen(r, ticketId, false))
      modifies platform.Repr()
      ensures platform.GrewFrom(old(platform.states), old(platform.acts))
      ensures platform.AtPhase(r, if outcome.Success? then Enqueueing else Releasing(AnswerOf(outcome)), b)
      ensures CheckExplained(platform.states, platform.acts, r, ticketId, net, outcome)
    {
      var ticket := ReadRow(ticketId, r, b, net.rowRead);
      ShownStays(old(platform.states), old(platform.acts), platform.states, platform.acts, FlagSeen(r, ticketId, false));
      if ticket.Err? {
        return Thrown(ticket.error);
      }
      if ticket.value.None? {
        return Refused(TICKET_NOT_FOUND);
      }
      if !ticket.value.value.isAvailable {
        return Refused(TICKET_NOT_AVAILABLE);
      }
      ghost var xs, bs := platform.states, platform.acts;
      var flagged := WriteFlag(ticketId, r, b, net.flagWrite);
      ShownStays(xs, bs, platform.states, platform.acts, FlagSeen(r, ticketId, false));
      ShownStays(xs, bs, platform.states, platform.acts, RowSeen(r, ticketId, ticket.value));
      outcome := if flagged.Ok? then Success(ticket.value.value) else Thrown(flagged.error);
    }
  }

  function PhaseAfterRow(reply: Reply<Option<TicketRow>>): Phase {
    if reply.Err? then Releasing(Failed)
    else if reply.value.None? then Releasing(NotFound)
    else if reply.value.value.isAvailable then WritingFlag
    else Releasing(NotAvailable)
  }

  /** What a successful call may rely on: its claim is pending, or its user holds the ticket, or the job has
      failed for good; and every other call that was granted the ticket has failed, or this one has. */
  ghost predicate SuccessMeansSeat(s: State, r: nat) {
    && ToldGranted(s, r)
    && (Unresolved(s, r) || GivenUp(s, r) || SoldTo(s.db, TicketOf(s.calls, r), s.calls[r].booking.userId))
    && (forall q | q != r && ToldGranted(s, q) ::
          TicketOf(s.calls, q) == TicketOf(s.calls, r) ==> GivenUp(s, r) || GivenUp(s, q))
  }

  lemma SuccessHolds(states: seq<State>, acts: seq<Action>, r: nat)
    requires SafeRun(states, acts) && ToldGranted(states[|acts|], r)
    ensures SuccessMeansSeat(states[|acts|], r)
  {
    var s := states[|acts|];
    GrantedAnswersHold(states, acts, r, |acts|, |acts|);
    forall q | q != r && ToldGranted(s, q) && TicketOf(s.calls, q) == TicketOf(s.calls, r)
      ensures GivenUp(s, r) || GivenUp(s, q)
    {
      OneGrantHolds(states, acts, r, q, |acts|);
    }
  }

  class QueueService {
    const platform: Platform
    const cacheService: RedisService

    constructor (platform: Platform, cacheService: RedisService)
      requires cacheService.cacheManager == platform.cache
      ensures cacheService.cacheManager == platform.cache
      ensures this.platform == platform && this.cacheService == cacheService
    {
      this.platform, this.cacheService := platform, cacheService;
    }

    /** The add, when the queue takes it. */
    method Add(data: Booking, r: nat)
      requires platform.Valid() && platform.AtPhase(r, Enqueueing, data)
      modifies platform.Repr()
      ensures platform.GrewFrom(old(platform.states), old(platform.acts))
      ensures At(platform.model.calls, r, Releasing(Granted)) && platform.model.calls[r].booking == data
      ensures r in platform.queue.jobs && platform.queue.jobs[r] == Job(data, 3, 1, Queued, false)
      ensures Shown(platform.states, platform.acts, JobAdded(r))
    {
      platform.Await(Seat(r));
      platform.queue.Add(r, data, platform.now);
      platform.Showed(Seating(r, Enqueue), JobAdded(r));
    }

    /** The rejected add. */
    method RejectedAdd(data: Booking, ghost r: nat)
      requires platform.Valid() && platform.AtPhase(r, Enqueueing, data)
      modifies platform.Repr()
      ensures platform.GrewFrom(old(platform.states), old(platform.acts))
      ensures platform.AtPhase(r, Compensating, data)
    {
      platform.Await(Seat(r));
      platform.Took(Seating(r, RejectAdd));
    }

    /** The compensating delete of the ticket's flag: if it arrives, the flag is gone from the store. */
    method Compensate(data: Booking, ghost r: nat, flagDelete: Link) returns (error: Error)
      requires cacheService.cacheManager == platform.cache && platform.Valid() && platform.AtPhase(r, Compensating, data)
      modifies platform.Repr()
      ensures platform.GrewFrom(old(platform.states), old(platform.acts))
      ensures platform.AtPhase(r, Releasing(Failed), data)
      ensures error == if flagDelete.Works? then FailedToAddQueue else Unavailable
      ensures !flagDelete.Lost? ==>
        && data.ticketId !in platform.model.flags && SoldOutKey(data.ticketId) !in platform.cache.entries
        && Shown(platform.states, platform.acts, FlagDropped(r))
    {
      platform.Await(Seat(r));
      DroppedFlagHeld(platform.cache.entries, platform.model.flags, data.ticketId);
      var deleted := cacheService.DeleteTicketSoldOut(data.ticketId, flagDelete);
      if flagDelete.Lost? {
        platform.Took(Seating(r, Fault(false)));
      } else {
        platform.Showed(Seating(r, CallStep.Compensate), FlagDropped(r));
      }
      error := if deleted.Ok? then FailedToAddQueue else deleted.error;
    }

    /** Adds the job; if the queue rejects it, takes the claim back and throws. */
    method AddReservationJob(data: Booking, r: nat, net: Network) returns (reply: Reply<()>)
      requires cacheService.cacheManager == platform.cache && platform.Valid() && platform.AtPhase(r, Enqueueing, data)
      modifies platform.Repr()
      ensures platform.GrewFrom(old(platform.states), old(platform.acts))
      ensures At(platform.model.calls, r, Releasing(if reply.Ok? then Granted else Failed))
      ensures platform.model.calls[r].booking == data
      ensures if net.add then reply == Ok(()) else reply == Err(if net.flagDelete.Works? then FailedToAddQueue else Unavailable)
      ensures reply.Ok? ==>
        && r in platform.queue.jobs && platform.queue.jobs[r] == Job(data, 3, 1, Queued, false)
        && Shown(platform.states, platform.acts, JobAdded(r))
      ensures reply.Err? ==> r !in platform.queue.jobs
      ensures reply.Err? && !net.flagDelete.Lost? ==>
        && data.ticketId !in platform.model.flags && SoldOutKey(data.ticketId) !in platform.cache.entries
        && Shown(platform.states, platform.acts, FlagDropped(r))
    {
      if net.add {
        Add(data, r);
        reply := Ok(());
      } else {
        RejectedAdd(data, r);
        var error := Compensate(data, r, net.flagDelete);
        reply := Err(error);
      }
    }
  }

  // ---- Standing ----

  /** What the standing route returns: the reservation, without its timestamps. */
  datatype ReservationEntity = ReservationEntity(id: Id, eventId: Id, userId: Id)

  /** The protocol's answer for what a standing caller gets. */
  function StandingAnswer(reply: Reply<ReservationEntity>): Answer {
    if reply.Ok? then Granted else if reply.error == TicketNotFound then NotFound else Failed
  }

  /** A standing call by what it asks for and has bought; its phase and lock time are told apart. */
  function Buyer(userId: Id, eventId: Id, bought: Option<Id>): StandingCall {
    StandingCall(userId, eventId, StandingArrived, 0, bought)
  }

  /** How a standing call's lock and the commit of its transaction go. */
  datatype StandingNetwork = StandingNetwork(lock: bool, commit: Link)

  /** The outcome of a standing call follows what it met: a lock it could not reach or that somebody else held; an
      event or a user that does not exist; no free ticket; a commit that did not arrive, although there was one to
      sell; or else a sale, which it does not hear of if the commit's reply is lost. */
  ghost predicate StandingExplained(states: seq<State>, acts: seq<Action>, q: nat, wanted: ReservationEntity,
                                    net: StandingNetwork, reply: Reply<ReservationEntity>, bought: Option<Id>) {
    match reply
    case Ok(entity) =>
      && entity == wanted && net.lock && net.commit.Works?
      && bought.Some? && Shown(states, acts, SaleMade(q, wanted.eventId, bought.value, wanted.id, true))
    case Err(e) =>
      || (e == NotLocked && bought.None? && (net.lock ==> Shown(states, acts, EventHeld(q, wanted.eventId))))
      || (e == FailedToCreateReservation && bought.None?
          && Shown(states, acts, Unconnected(q, wanted.eventId, wanted.userId, wanted.id)))
      || (e == TicketNotFound && bought.None? && Shown(states, acts, NoneFree(q, wanted.eventId)))
      || (e == FailedToReserveTicket && bought.None? && net.commit.Lost?
          && Shown(states, acts, CommitRefused(q, wanted.eventId, wanted.userId, wanted.id)))
      || (e == Unavailable && net.commit.ReplyLost? && bought.Some?
          && Shown(states, acts, SaleMade(q, wanted.eventId, bought.value, wanted.id, false)))
  }

  /** The event has an available ticket. */
  ghost predicate HasFree(db: Db, e: Id) {
    exists t :: t in db.tickets && db.tickets[t].isAvailable && db.tickets[t].eventId == e
  }

  /** What the transaction answers, by the tables it finds. */
  ghost function StandingReply(db: Db, wanted: ReservationEntity, commit: Link): Reply<ReservationEntity> {
    if !Connects(db, wanted.eventId, wanted.userId, wanted.id) then Err(FailedToCreateReservation)
    else if !HasFree(db, wanted.eventId) then Err(TicketNotFound)
    else if commit.Works? then Ok(wanted)
    else if commit.Lost? then Err(FailedToReserveTicket)
    else Err(Unavailable)
  }

  lemma StandingStaysExplained(xs: seq<State>, bs: seq<Action>, states: seq<State>, acts: seq<Action>, q: nat,
                               wanted: ReservationEntity, net: StandingNetwork, reply: Reply<ReservationEntity>, bought: Option<Id>)
    requires xs <= states && bs <= acts && StandingExplained(xs, bs, q, wanted, net, reply, bought)
    ensures StandingExplained(states, acts, q, wanted, net, reply, bought)
  {
    forall fact | Shown(xs, bs, fact) ensures Shown(states, acts, fact) {
      ShownStays(xs, bs, states, acts, fact);
    }
  }

  /** What a buyer may rely on: a ticket of the event is sold to its user, and to no other call. */
  ghost predicate PurchaseMeansTicket(s: State, q: nat) {
    && q in s.standing && s.standing[q].bought.Some?
    && BoughtBy(s.db, s.standing[q])
    && (forall p | p in s.standing && p != q :: s.standing[p].bought != s.standing[q].bought)
  }

  lemma PurchaseHolds(states: seq<State>, acts: seq<Action>, q: nat)
    requires SafeRun(states, acts) && q in states[|acts|].standing && states[|acts|].standing[q].bought.Some?
    ensures PurchaseMeansTicket(states[|acts|], q)
  {
    var s := states[|acts|];
    RunInv(states, acts, |acts|);
    assert SaleInv(s.now, s.db, s.standing[q]);
  }

  class ReservationsService {
    const platform: Platform
    const queueService: QueueService
    const ticketsService: TicketsService
    const reservationsRepository: ReservationsRepository

    ghost predicate Wired() {
      && queueService.platform == platform && queueService.cacheService.cacheManager == platform.cache
      && ticketsService.platform == platform && ticketsService.Wired()
      && reservationsRepository.prisma == platform.prisma
    }

    constructor (platform: Platform, queueService: QueueService, ticketsService: TicketsService,
                 reservationsRepository: ReservationsRepository)
      requires queueService.platform == platform && queueService.cacheService.cacheManager == platform.cache
      requires ticketsService.platform == platform && ticketsService.Wired()
      requires reservationsRepository.prisma == platform.prisma
      ensures Wired() && this.platform == platform
    {
      this.platform, this.queueService := platform, queueService;
      this.ticketsService, this.reservationsRepository := ticketsService, reservationsRepository;
    }

    /** Takes the lock of the ticket, if the lock server can be reached and no live lease stands. */
    method Lock(b: Booking, r: nat, reachable: bool) returns (ok: bool)
      requires platform.Valid() && platform.AtPhase(r, Arrived, b)
      modifies platform.Repr()
      ensures platform.GrewFrom(old(platform.states), old(platform.acts))
      ensures platform.AtPhase(r, if ok then ReadingFlag else Returned(Failed), b)
      ensures ok ==> reachable
      ensures !ok && reachable ==> Shown(platform.states, platform.acts, LockHeld(r, b.ticketId))
    {
      platform.Await(Seat(r));
      ok := reachable && LeaseFree(platform.locks.leases, b.ticketId, platform.now);
      if ok {
        platform.locks.leases := platform.locks.leases[b.ticketId := Lease(r, platform.now + LEASE)];
        platform.Took(Seating(r, Acquire));
      } else if reachable {
        platform.Showed(Seating(r, Fault(false)), LockHeld(r, b.ticketId));
      } else {
        platform.Took(Seating(r, Fault(false)));
      }
    }

    /** Gives the lock back if the call still owns it. */
    method Unlock(b: Booking, r: nat, ghost answer: Answer)
      requires platform.Valid() && At(platform.model.calls, r, Releasing(answer)) && platform.model.calls[r].booking == b
      modifies platform.Repr()
      ensures platform.GrewFrom(old(platform.states), old(platform.acts))
      ensures At(platform.model.calls, r, Returned(answer)) && platform.model.calls[r].booking == b
      ensures r in old(platform.queue.jobs) ==>
        r in platform.queue.jobs && platform.queue.jobs[r].booking == old(platform.queue.jobs[r].booking)
      ensures forall t | t in platform.locks.leases :: platform.locks.leases[t].owner != r
    {
      platform.Await(Seat(r));
      platform.locks.leases := Without(platform.locks.leases, b.ticketId, r);
      platform.Took(Seating(r, Release));
      ReturnedCallsOwnNothing(platform.states, platform.acts, |platform.acts|);
    }

    /** The seating route, under the ticket's lock: check and flag, then enqueue. Whatever everybody else
        does at each await, the call runs through the protocol, and its outcome follows what it read. */
    method CreateSeating(userId: Id, ticketId: Id, eventId: Id, r: nat, net: Network) returns (outcome: Outcome)
      requires Wired() && platform.Valid() && r !in platform.model.calls && r !in platform.model.jobs
      requires SeatingRequest(platform.model.db, ticketId)
      modifies platform.Repr()
      ensures platform.GrewFrom(old(platform.states), old(platform.acts))
      ensures At(platform.model.calls, r, Returned(AnswerOf(outcome)))
      ensures platform.model.calls[r].booking == Booking(userId, ticketId, eventId)
      ensures SeatingExplained(platform.states, platform.acts, r, ticketId, net, outcome)
      ensures forall t | t in platform.locks.leases :: platform.locks.leases[t].owner != r
      ensures outcome.Success? ==> r in platform.queue.jobs && platform.queue.jobs[r].booking == Booking(userId, ticketId, eventId)
      ensures outcome.Success? && SafeRun(platform.states, platform.acts) ==> SuccessMeansSeat(platform.model, r)
    {
      var b := Booking(userId, ticketId, eventId);
      Arrives(b, r);
      outcome := LockAndSeat(b, r, net);
      ReturnedCallsOwnNothing(platform.states, platform.acts, |platform.acts|);
      if outcome.Success? && SafeRun(platform.states, platform.acts) {
        SuccessHolds(platform.states, platform.acts, r);
      }
    }

    /** A request comes in under a fresh call id. */
    ghost method Arrives(b: Booking, r: nat)
      requires platform.Valid() && r !in platform.model.calls && r !in platform.model.jobs
      requires SeatingRequest(platform.model.db, b.ticketId)
      modifies platform`model, platform`states, platform`acts
      ensures platform.GrewFrom(old(platform.states), old(platform.acts))
      ensures platform.AtPhase(r, Arrived, b)
    {
      platform.Took(Seating(r, Arrive(b)));
    }

    /** What the lock decorator makes of the call. */
    method LockAndSeat(b: Booking, r: nat, net: Network) returns (outcome: Outcome)
      requires Wired() && platform.Valid() && platform.AtPhase(r, Arrived, b)
      modifies platform.Repr()
      ensures platform.GrewFrom(old(platform.states), old(platform.acts))
      ensures At(platform.model.calls, r, Returned(AnswerOf(outcome))) && platform.model.calls[r].booking == b
      ensures SeatingExplained(platform.states, platform.acts, r, b.ticketId, net, outcome)
      ensures outcome.Success? ==> r in platform.queue.jobs && platform.queue.jobs[r].booking == b
    {
      var locked := Lock(b, r, net.lock);
      if !locked {
        return Thrown(NotLocked);
      }
      outcome := SeatUnderLock(b, r, net);
      ghost var xs, bs := platform.states, platform.acts;
      Unlock(b, r, AnswerOf(outcome));
      SeatingStaysExplained(xs, bs, platform.states, platform.acts, r, b.ticketId, net, outcome);
    }

    method SeatUnderLock(b: Booking, r: nat, net: Network) returns (outcome: Outcome)
      requires Wired() && platform.Valid() && platform.AtPhase(r, ReadingFlag, b)
      modifies platform.Repr()
      ensures platform.GrewFrom(old(platform.states), old(platform.acts))
      ensures At(platform.model.calls, r, Releasing(AnswerOf(outcome))) && platform.model.calls[r].booking == b
      ensures SeatingExplained(platform.states, platform.acts, r, b.ticketId, net, outcome)
      ensures outcome.Success? ==> r in platform.queue.jobs && platform.queue.jobs[r].booking == b
    {
      var ticketing := ticketsService.FindTicketByTicketId(b.ticketId, r, b, net);
      if !ticketing.Success? {
        return ticketing;
      }
      ghost var xs, bs := platform.states, platform.acts;
      var added := queueService.AddReservationJob(b, r, net);
      CheckStaysExplained(xs, bs, platform.states, platform.acts, r, b.ticketId, net, ticketing);
      outcome := if added.Ok? then ticketing else Thrown(added.error);
    }

    /** Takes the lock of the event. */
    method LockEvent(eventId: Id, ghost c: StandingCall, q: nat, reachable: bool) returns (ok: bool)
      requires platform.Valid() && platform.StandsAt(q, StandingArrived, c) && c.eventId == eventId
      modifies platform.Repr()
      ensures platform.GrewFrom(old(platform.states), old(platform.acts))
      ensures platform.StandsAt(q, if ok then Finding else StandingReturned(Failed), c)
      ensures ok ==> reachable
      ensures !ok && reachable ==> Shown(platform.states, platform.acts, EventHeld(q, eventId))
    {
      platform.Await(Stand(q));
      ok := reachable && LeaseFree(platform.locks.eventLeases, eventId, platform.now);
      if ok {
        platform.locks.eventLeases := platform.locks.eventLeases[eventId := Lease(q, platform.now + LEASE)];
        platform.Took(Standing(q, AcquireEvent));
      } else if reachable {
        platform.Showed(Standing(q, FaultStanding), EventHeld(q, eventId));
      } else {
        platform.Took(Standing(q, FaultStanding));
      }
    }

    method UnlockEvent(eventId: Id, ghost c: StandingCall, q: nat, ghost answer: Answer)
      requires platform.Valid() && platform.StandsAt(q, StandingReleasing(answer), c) && c.eventId == eventId
      modifies platform.Repr()
      ensures platform.GrewFrom(old(platform.states), old(platform.acts))
      ensures platform.StandsAt(q, StandingReturned(answer), c)
      ensures forall e | e in platform.locks.eventLeases :: platform.locks.eventLeases[e].owner != q
    {
      platform.Await(Stand(q));
      platform.locks.eventLeases := Without(platform.locks.eventLeases, eventId, q);
      platform.Took(Standing(q, ReleaseEvent));
      ReturnedCallsOwnNothing(platform.states, platform.acts, |platform.acts|);
    }

    /** The transaction: a reservation, then the first available ticket, then the update; an error rolls
        all of it back. `commit` says whether the commit arrives, and whether its reply does. */
    method StandingTransaction(eventId: Id, userId: Id, id: Id, commit: Link)
      returns (reply: Reply<ReservationEntity>, ghost bought: Option<Id>)
      requires Wired()
      modifies platform.prisma
      ensures var db := old(platform.prisma.Rows());
        && reply == StandingReply(db, ReservationEntity(id, eventId, userId), commit)
        && (bought.Some? <==> reply.Ok? || reply.error == Unavailable)
        && (bought.None? ==> platform.prisma.Rows() == db)
        && (bought.Some? ==>
              && bought.value in db.tickets && db.tickets[bought.value].isAvailable && db.tickets[bought.value].eventId == eventId
              && SaleOf(db, platform.prisma.Rows(), Booking(userId, bought.value, eventId), id)
              && SaleTransaction(db, Booking(userId, bought.value, eventId), id) == Some(platform.prisma.Rows()))
    {
      bought := None;
      var prisma := platform.prisma;
      var before := prisma.Rows();
      var created := reservationsRepository.CreateReservationTX(eventId, userId, id);
      if !created {
        prisma.Rollback(before);
        return Err(FailedToCreateReservation), None;
      }
      var ticket := ticketsService.ticketsRepository.FindStandingTicketTX(eventId);
      assert FreeTickets(prisma.Rows(), eventId) == FreeTickets(before, eventId);
      if ticket.None? {
        prisma.Rollback(before);
        return Err(TicketNotFound), None;
      }
      var booked := ticketsService.ticketsRepository.ReserveTicketTX(ticket.value, id);
      if !booked || commit.Lost? {
        prisma.Rollback(before);
        return Err(FailedToReserveTicket), None;
      }
      bought := ticket;
      SaleWritesExactly(before, Booking(userId, ticket.value, eventId), id);
      reply := if commit.Works? then Ok(ReservationEntity(id, eventId, userId)) else Err(Unavailable);
    }

    ghost method StandingArrives(userId: Id, eventId: Id, q: nat)
      requires platform.Valid() && q !in platform.model.standing && StandingRequest(platform.model.db, eventId)
      modifies platform`model, platform`states, platform`acts
      ensures platform.GrewFrom(old(platform.states), old(platform.acts))
      ensures platform.StandsAt(q, StandingArrived, Buyer(userId, eventId, None))
    {
      platform.Took(Standing(q, ArriveStanding(userId, eventId)));
    }

    /** The standing route, under the event's lock. Whatever everybody else does at each await, the call runs
        through the protocol, its outcome follows what it met, and `bought` is the ticket it bought. */
    method CreateStanding(userId: Id, eventId: Id, q: nat, id: Id, net: StandingNetwork)
      returns (reply: Reply<ReservationEntity>, ghost bought: Option<Id>)
      requires Wired() && platform.Valid() && q !in platform.model.standing && StandingRequest(platform.model.db, eventId)
      modifies platform.Repr()
      ensures platform.GrewFrom(old(platform.states), old(platform.acts))
      ensures platform.StandsAt(q, StandingReturned(StandingAnswer(reply)), Buyer(userId, eventId, bought))
      ensures StandingExplained(platform.states, platform.acts, q, ReservationEntity(id, eventId, userId), net, reply, bought)
      ensures forall e | e in platform.locks.eventLeases :: platform.locks.eventLeases[e].owner != q
      ensures bought.Some? && SafeRun(platform.states, platform.acts) ==> PurchaseMeansTicket(platform.model, q)
    {
      StandingArrives(userId, eventId, q);
      reply, bought := LockAndSell(userId, eventId, q, id, net);
      ReturnedCallsOwnNothing(platform.states, platform.acts, |platform.acts|);
      if bought.Some? && SafeRun(platform.states, platform.acts) {
        PurchaseHolds(platform.states, platform.acts, q);
      }
    }

    /** What the lock decorator makes of the call. */
    method LockAndSell(userId: Id, eventId: Id, q: nat, id: Id, net: StandingNetwork)
      returns (reply: Reply<ReservationEntity>, ghost bought: Option<Id>)
      requires Wired() && platform.Valid() && platform.StandsAt(q, StandingArrived, Buyer(userId, eventId, None))
      modifies platform.Repr()
      ensures platform.GrewFrom(old(platform.states), old(platform.acts))
      ensures platform.StandsAt(q, StandingReturned(StandingAnswer(reply)), Buyer(userId, eventId, bought))
      ensures StandingExplained(platform.states, platform.acts, q, ReservationEntity(id, eventId, userId), net, reply, bought)
    {
      var locked := LockEvent(eventId, Buyer(userId, eventId, None), q, net.lock);
      if !locked {
        return Err(NotLocked), None;
      }
      reply, bought := SellUnderLock(userId, eventId, q, id, net);
      ghost var xs, bs := platform.states, platform.acts;
      UnlockEvent(eventId, Buyer(userId, eventId, bought), q, StandingAnswer(reply));
      StandingStaysExplained(xs, bs, platform.states, platform.acts, q, ReservationEntity(id, eventId, userId), net, reply, bought);
    }

    method SellUnderLock(userId: Id, eventId: Id, q: nat, id: Id, net: StandingNetwork)
      returns (reply: Reply<ReservationEntity>, ghost bought: Option<Id>)
      requires Wired() && platform.Valid() && net.lock
      requires platform.StandsAt(q, Finding, Buyer(userId, eventId, None))
      modifies platform.Repr()
      ensures platform.GrewFrom(old(platform.states), old(platform.acts))
      ensures platform.StandsAt(q, StandingReleasing(StandingAnswer(reply)), Buyer(userId, eventId, bought))
      ensures StandingExplained(platform.states, platform.acts, q, ReservationEntity(id, eventId, userId), net, reply, bought)
    {
      platform.Await(Stand(q));
      reply, bought := StandingTransaction(eventId, userId, id, net.commit);
      if bought.Some? {
        RecordSale(userId, eventId, q, id, bought.value, reply.Ok?);
      } else {
        RecordRefusal(userId, eventId, q, id, reply.error);
      }
    }

    /** The steps of the protocol that a transaction is: a find and a commit, ... */
    ghost method RecordSale(userId: Id, eventId: Id, q: nat, id: Id, ticketId: Id, reported: bool)
      requires platform.HistoryIsRun() && platform.StandsAt(q, Finding, Buyer(userId, eventId, None))
      requires ticketId in FreeTickets(platform.model.db, eventId)
      requires SaleTransaction(platform.model.db, Booking(userId, ticketId, eventId), id).Some?
      modifies platform`model, platform`states, platform`acts
      ensures platform.HistoryIsRun() && old(platform.states) <= platform.states && old(platform.acts) <= platform.acts
      ensures platform.model == old(platform.model).(standing := platform.model.standing,
        db := SaleTransaction(old(platform.model.db), Booking(userId, ticketId, eventId), id).value)
      ensures platform.StandsAt(q, StandingReleasing(if reported then Granted else Failed), Buyer(userId, eventId, Some(ticketId)))
      ensures Shown(platform.states, platform.acts, SaleMade(q, eventId, ticketId, id, reported))
    {
      TicketIsFound(platform.model, q, Buyer(userId, eventId, None), ticketId);
      platform.Took(Standing(q, FindTicket(Some(ticketId))));
      TicketIsSold(platform.model, q, Buyer(userId, eventId, None), ticketId, id, reported);
      platform.Showed(Standing(q, CommitSale(id, reported)), SaleMade(q, eventId, ticketId, id, reported));
    }

    /** ... or a find that finds nothing, or a failure. */
    ghost method RecordRefusal(userId: Id, eventId: Id, q: nat, id: Id, e: Error)
      requires platform.HistoryIsRun() && platform.StandsAt(q, Finding, Buyer(userId, eventId, None))
      requires e == FailedToCreateReservation ==> CreateReservation(platform.model.db, eventId, userId, id).None?
      requires e == TicketNotFound ==>
        && CreateReservation(platform.model.db, eventId, userId, id).Some?
        && FreeTickets(platform.model.db, eventId) == {}
      requires e == FailedToReserveTicket ==>
        CreateReservation(platform.model.db, eventId, userId, id).Some? && FreeTickets(platform.model.db, eventId) != {}
      requires e == FailedToCreateReservation || e == TicketNotFound || e == FailedToReserveTicket
      modifies platform`model, platform`states, platform`acts
      ensures platform.HistoryIsRun() && old(platform.states) <= platform.states && old(platform.acts) <= platform.acts
      ensures platform.model == old(platform.model).(standing := platform.model.standing)
      ensures platform.StandsAt(q, StandingReleasing(StandingAnswer(Err(e))), Buyer(userId, eventId, None))
      ensures e == FailedToCreateReservation ==> Shown(platform.states, platform.acts, Unconnected(q, eventId, userId, id))
      ensures e == TicketNotFound ==> Shown(platform.states, platform.acts, NoneFree(q, eventId))
      ensures e == FailedToReserveTicket ==> Shown(platform.states, platform.acts, CommitRefused(q, eventId, userId, id))
    {
      if e == TicketNotFound {
        platform.Showed(Standing(q, FindTicket(None)), NoneFree(q, eventId));
      } else if e == FailedToCreateReservation {
        platform.Showed(Standing(q, FaultStanding), Unconnected(q, eventId, userId, id));
      } else {
        platform.Showed(Standing(q, FaultStanding), CommitRefused(q, eventId, userId, id));
      }
    }
  }

  lemma TicketIsFound(s: State, q: nat, c: StandingCall, t: Id)
    requires q in s.standing && s.standing[q] == c.(phase := Finding, lockedAt := s.standing[q].lockedAt)
    requires t in FreeTickets(s.db, c.eventId) && c.eventId in s.db.events && c.userId in s.db.users
    ensures var a := Standing(q, FindTicket(Some(t)));
      && Enabled(s, a)
      && Apply(s, a) == s.(standing := s.standing[q := s.standing[q].(phase := Committing(t))])
  {
  }

  lemma TicketIsSold(s: State, q: nat, c: StandingCall, t: Id, id: Id, reported: bool)
    requires q in s.standing && s.standing[q] == c.(phase := Committing(t), lockedAt := s.standing[q].lockedAt)
    requires t in FreeTickets(s.db, c.eventId)
    requires SaleTransaction(s.db, Booking(c.userId, t, c.eventId), id).Some?
    ensures var a := Standing(q, CommitSale(id, reported));
      && Enabled(s, a) && Shows(s, a, SaleMade(q, c.eventId, t, id, reported))
      && Apply(s, a) == s.(
           standing := s.standing[q := c.(phase := StandingReleasing(if reported then Granted else Failed),
                                          lockedAt := s.standing[q].lockedAt, bought := Some(t))],
           db := SaleTransaction(s.db, Booking(c.userId, t, c.eventId), id).value)
  {
  }

  // ---- The worker ----

  class ReservationConsumer {
    const platform: Platform
    const ticketsRepository: TicketsRepository
    const reservationsRepository: ReservationsRepository

    ghost predicate Wired() {
      ticketsRepository.prisma == platform.prisma && reservationsRepository.prisma == platform.prisma
    }

    constructor (platform: Platform, ticketsRepository: TicketsRepository, reservationsRepository: ReservationsRepository)
      requires ticketsRepository.prisma == platform.prisma && reservationsRepository.prisma == platform.prisma
      ensures Wired() && this.platform == platform
    {
      this.platform := platform;
      this.ticketsRepository, this.reservationsRepository := ticketsRepository, reservationsRepository;
    }

    /** One attempt at a job: both writes or neither. `commit` says whether the commit arrives, and whether its
        reply does. */
    method Process(data: Booking, id: Id, commit: Link) returns (reply: Reply<()>)
      requires Wired()
      modifies platform.prisma
      ensures var db := old(platform.prisma.Rows());
        && (reply.Ok? <==> commit.Works? && CanBeSold(db, data, id))
        && (reply == Err(Unavailable) <==> commit.ReplyLost? && CanBeSold(db, data, id))
        && (if CanBeSold(db, data, id) && !commit.Lost? then SaleOf(db, platform.prisma.Rows(), data, id)
            else platform.prisma.Rows() == db)
        && (CanBeSold(db, data, id) && !commit.Lost? ==> SaleTransaction(db, data, id) == Some(platform.prisma.Rows()))
    {
      var before := platform.prisma.Rows();
      var created := reservationsRepository.CreateReservationTX(data.eventId, data.userId, id);
      if !created {
        platform.prisma.Rollback(before);
        return Err(FailedToCreateReservation);
      }
      var reserved := ticketsRepository.ReserveTicketTX(data.ticketId, id);
      if !reserved || commit.Lost? {
        platform.prisma.Rollback(before);
        return Err(FailedToReserveTicket);
      }
      SaleWritesExactly(before, data, id);
      reply := if commit.Works? then Ok(()) else Err(Unavailable);
    }

    /** An attempt in progress at job `r`, and what the queue does with its result: a step of the protocol's workers.
        If the job can be sold and the commit works, the job is done; if it cannot, or the commit does not arrive,
        nothing is written and the job has an attempt fewer; if only the report is lost, the sale stands all the same. */
    method Deliver(r: nat, id: Id, commit: Link)
      requires Wired() && platform.Valid()
      requires r in platform.queue.schedule.active && r in platform.queue.jobs && platform.queue.jobs[r].attemptsLeft > 0
      modifies platform, platform.prisma, platform.queue
      ensures platform.GrewFrom(old(platform.states), old(platform.acts))
      ensures r in platform.queue.jobs && (forall x | x in old(platform.queue.jobs) && x != r ::
        x in platform.queue.jobs && platform.queue.jobs[x] == old(platform.queue.jobs[x]))
      ensures Delivered(old(platform.prisma.Rows()), platform.prisma.Rows(), old(platform.queue.jobs[r]),
                        platform.queue.jobs[r], id, commit, platform.now)
      ensures Placed(old(platform.queue.schedule), platform.queue.schedule, r, platform.queue.jobs[r].status, platform.now)
      ensures platform.model == Apply(old(platform.model), Worker(
          AttemptAt(r, id, commit, SaleTransaction(old(platform.model.db), old(platform.model.jobs[r].booking), id).Some?)))
    {
      AttemptOutcome(platform.states, platform.acts, r, id, commit);
      var reply := Process(platform.queue.jobs[r].booking, id, commit);
      Settle(r, reply.Ok?, reply.Ok? || reply.error == Unavailable);
      RecordAttempt(r, id, commit);
    }

    /** The step of the protocol that an attempt is. */
    ghost method RecordAttempt(r: nat, id: Id, commit: Link)
      requires platform.HistoryIsRun() && r in platform.model.schedule.active && r in platform.model.jobs
      requires platform.model.jobs[r].attemptsLeft > 0
      modifies platform`model, platform`states, platform`acts
      ensures platform.HistoryIsRun() && old(platform.states) <= platform.states && old(platform.acts) <= platform.acts
      ensures var s := old(platform.model);
        var sold := SaleTransaction(s.db, s.jobs[r].booking, id);
        var ending := if sold.Some? && commit.Works? then Acked else Errored;
        && platform.model == Apply(s, Worker(AttemptAt(r, id, commit, sold.Some?)))
        && platform.model == s.(
             jobs := s.jobs[r := JobAfter(s.now, s.jobs[r], sold.Some? && !commit.Lost?, ending)],
             schedule := ScheduleAfter(s.now, s.jobs, s.schedule, EndAttempt(r, None, ending)),
             db := if sold.Some? && !commit.Lost? then sold.value else s.db,
             redelivered := platform.model.redelivered)
    {
      AttemptIsStep(platform.model, r, id, commit);
      platform.Took(Worker(AttemptAt(r, id, commit, SaleTransaction(platform.model.db, platform.model.jobs[r].booking, id).Some?)));
    }

    /** What the queue does with the result of an attempt. `sold` is for the record: it decides nothing. */
    method Settle(r: nat, ok: bool, sold: bool)
      requires r in platform.queue.schedule.active && r in platform.queue.jobs && platform.queue.jobs[r].attemptsLeft > 0
      requires ok ==> sold
      modifies platform.queue
      ensures var ending := if ok then Acked else Errored;
        && platform.queue.jobs
           == old(platform.queue.jobs)[r := JobAfter(platform.now, old(platform.queue.jobs[r]), sold, ending)]
        && platform.queue.schedule
           == ScheduleAfter(platform.now, old(platform.queue.jobs), old(platform.queue.schedule), EndAttempt(r, None, ending))
    {
      var queue := platform.queue;
      var job := queue.jobs[r];
      var left := job.attemptsLeft - 1;
      if ok {
        queue.jobs := queue.jobs[r := job.(status := Completed, committed := true)];
      } else {
        queue.jobs := queue.jobs[r := job.(attemptsLeft := left, committed := job.committed || sold,
                                           status := if left == 0 then Exhausted(platform.now, false) else job.status)];
      }
      var due := if |queue.schedule.active| < queue.schedule.workers then queue.schedule.due
                 else Max(queue.schedule.due, platform.now);
      queue.schedule := queue.schedule.(active := queue.schedule.active - {r}, due := due);
      if !ok && left > 0 {
        queue.schedule := queue.schedule.(delayed := queue.schedule.delayed[r := platform.now + BACKOFF]);
      }
    }
  }

  /** What an attempt makes of the tables and of its job. */
  ghost predicate Delivered(db: Db, db': Db, job: Job, job': Job, id: Id, commit: Link, now: nat) {
    && job'.booking == job.booking
    && (if CanBeSold(db, job.booking, id) && commit.Works? then
          && SaleOf(db, db', job.booking, id) && job'.committed
          && job'.status.Completed? && job'.attemptsLeft == job.attemptsLeft
        else
          && (if CanBeSold(db, job.booking, id) && commit.ReplyLost? then SaleOf(db, db', job.booking, id) && job'.committed
              else db' == db && job'.committed == job.committed)
          && job'.attemptsLeft == job.attemptsLeft - 1
          && job'.status == (if job.attemptsLeft == 1 then Exhausted(now, false) else Queued))
  }

  /** Where the queue has the job then: nowhere if it has ended, and else backed off for a second. All other jobs
      stay where they are. */
  predicate Placed(q: Schedule, q': Schedule, r: nat, status: Status, now: nat) {
    && r !in q'.wait && r !in q'.active && (r in q'.delayed <==> status.Queued?)
    && q'.wait == q.wait && q'.active == q.active - {r}
    && q'.delayed == (if status.Queued? then q.delayed[r := now + 1000] else q.delayed)
    && q'.nextStart == q.nextStart && q'.workers == q.workers
  }

  lemma AttemptDelivers(db: Db, job: Job, id: Id, commit: Link, now: nat)
    requires job.attemptsLeft > 0 && job.status.Queued?
    ensures var sells := CanBeSold(db, job.booking, id);
      && (sells <==> SaleTransaction(db, job.booking, id).Some?)
      && Delivered(db, if sells && !commit.Lost? then SaleTransaction(db, job.booking, id).value else db, job,
                   JobAfter(now, job, sells && !commit.Lost?, if sells && commit.Works? then Acked else Errored), id, commit, now)
  {
    SaleWritesExactly(db, job.booking, id);
  }

  lemma AttemptPlaces(jobs: map<nat, Job>, q: Schedule, r: nat, ending: Ending, now: nat)
    requires ScheduleInv(jobs, q) && r in q.active && r in jobs && jobs[r].attemptsLeft > 0 && !ending.Stalled?
    ensures Placed(q, ScheduleAfter(now, jobs, q, EndAttempt(r, None, ending)), r, JobAfter(now, jobs[r], false, ending).status, now)
  {
    assert Scheduled(q, r);
  }

  /** What the step of an attempt makes of the tables, the job and the schedule in a run. */
  lemma AttemptOutcome(states: seq<State>, acts: seq<Action>, r: nat, id: Id, commit: Link)
    requires Run(states, acts) && Unused(states[0])
    requires var s := states[|acts|]; r in s.schedule.active && r in s.jobs && s.jobs[r].attemptsLeft > 0
    ensures var s := states[|acts|];
      var sold := SaleTransaction(s.db, s.jobs[r].booking, id);
      var ending := if sold.Some? && commit.Works? then Acked else Errored;
      var job := JobAfter(s.now, s.jobs[r], sold.Some? && !commit.Lost?, ending);
      && (sold.Some? <==> CanBeSold(s.db, s.jobs[r].booking, id))
      && Delivered(s.db, if sold.Some? && !commit.Lost? then sold.value else s.db, s.jobs[r], job, id, commit, s.now)
      && Placed(s.schedule, ScheduleAfter(s.now, s.jobs, s.schedule, EndAttempt(r, None, ending)), r, job.status, s.now)
  {
    var s := states[|acts|];
    ScheduleInHistory(states, acts, |acts|);
    assert Scheduled(s.schedule, r);
    AttemptDelivers(s.db, s.jobs[r], id, commit, s.now);
    var sells := SaleTransaction(s.db, s.jobs[r].booking, id).Some?;
    AttemptPlaces(s.jobs, s.schedule, r, if sells && commit.Works? then Acked else Errored, s.now);
  }

  lemma AttemptIsStep(s: State, r: nat, id: Id, commit: Link)
    requires r in s.schedule.active && r in s.jobs && s.jobs[r].attemptsLeft > 0
    ensures var sold := SaleTransaction(s.db, s.jobs[r].booking, id);
      var ending := if sold.Some? && commit.Works? then Acked else Errored;
      var step := Worker(AttemptAt(r, id, commit, sold.Some?));
      && Enabled(s, step)
      && Apply(s, step) == s.(
           jobs := s.jobs[r := JobAfter(s.now, s.jobs[r], sold.Some? && !commit.Lost?, ending)],
           schedule := ScheduleAfter(s.now, s.jobs, s.schedule, EndAttempt(r, None, ending)),
           db := if sold.Some? && !commit.Lost? then sold.value else s.db,
           redelivered := Apply(s, step).redelivered)
  {
  }

  /** How an attempt ends, given whether its transaction can sell the ticket. */
  function AttemptAt(r: nat, id: Id, commit: Link, sells: bool): WorkerStep {
    EndAttempt(r, if sells && !commit.Lost? then Some(id) else None, if sells && commit.Works? then Acked else Errored)
  }
}
