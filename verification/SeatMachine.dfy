/** The sale of one seat, as its buyers should see it, and the proof that every timely step of the
    four stores is a step of it: the protocol refines this machine, seat by seat. */
module SeatMachine {
  import opened Durations
  import opened Tables
  import opened SaleProtocol
  import opened SaleInvariant
  import opened SeatingSteps
  import opened WorkerSteps
  import opened SaleRuns

  /** `Quarantined`: flagged, but nobody's claim; it becomes free when the flag goes. */
  datatype Seat = Free | Claimed(user: Id) | Quarantined | Sold(user: Id)

  /** The moves of the machine. A claim is sold to its claimant or dropped; a sale is final. */
  predicate SeatStep(x: Seat, y: Seat) {
    || (x.Free? && !y.Free?)
    || (x.Claimed? && (y == Sold(x.user) || y == Quarantined))
    || (x.Quarantined? && y.Free?)
  }

  predicate StutterOrStep(x: Seat, y: Seat) {
    x == y || SeatStep(x, y)
  }

  // ---- The seat that the stores represent ----

  /** `r` has flagged `t` and still means to buy it. */
  predicate Claiming(calls: map<nat, Call>, jobs: map<nat, Job>, r: nat, t: Id) {
    Unsettled(calls, jobs, r) && !calls[r].phase.Compensating? && TicketOf(calls, r) == t
  }

  ghost function SeatOf(now: nat, flags: map<Id, nat>, calls: map<nat, Call>, jobs: map<nat, Job>, db: Db, t: Id): Seat
  {
    if IsSold(db, t) then Sold(OwnerOf(db, t))
    else if exists r :: Claiming(calls, jobs, r, t) then
      var r :| Claiming(calls, jobs, r, t);
      Claimed(calls[r].booking.userId)
    else if FlagUp(now, flags, t) then Quarantined
    else Free
  }

  ghost function SeatIn(s: State, t: Id): Seat {
    SeatOf(s.now, s.flags, s.calls, s.jobs, s.db, t)
  }

  /** What a seat's value depends on: at most one stake, and open claims whose flag is up. */
  ghost predicate Settled(now: nat, flags: map<Id, nat>, calls: map<nat, Call>, jobs: map<nat, Job>, db: Db) {
    && Consistent(db)
    && OneStakePerTicket(calls, jobs)
    && (forall r | Unsettled(calls, jobs, r) ::
          FlagUp(now, flags, TicketOf(calls, r)) && Available(db, TicketOf(calls, r)))
  }

  lemma InvSettled(s: State)
    requires Inv(s) && ClaimsYoungerThan(s, FLAG_TTL)
    ensures Settled(s.now, s.flags, s.calls, s.jobs, s.db)
  {
  }

  /** A seat with an open claim is the claimant's, or quarantined while the claim is being undone. */
  lemma ClaimedSeat(now: nat, flags: map<Id, nat>, calls: map<nat, Call>, jobs: map<nat, Job>, db: Db, r: nat)
    requires Settled(now, flags, calls, jobs, db) && Unsettled(calls, jobs, r)
    ensures SeatOf(now, flags, calls, jobs, db, TicketOf(calls, r))
         == if calls[r].phase.Compensating? then Quarantined else Claimed(calls[r].booking.userId)
  {
    forall q | Claiming(calls, jobs, q, TicketOf(calls, r)) ensures q == r {
      assert Staked(calls, jobs, q) && Staked(calls, jobs, r);
    }
    assert !calls[r].phase.Compensating? ==> Claiming(calls, jobs, r, TicketOf(calls, r));
  }

  /** A seat without an open claim is sold, or quarantined exactly while its flag is up. */
  lemma UnclaimedSeat(now: nat, flags: map<Id, nat>, calls: map<nat, Call>, jobs: map<nat, Job>, db: Db, t: Id)
    requires Consistent(db) && (forall r | Unsettled(calls, jobs, r) :: TicketOf(calls, r) != t)
    ensures SeatOf(now, flags, calls, jobs, db, t)
         == if IsSold(db, t) then Sold(OwnerOf(db, t))
            else if FlagUp(now, flags, t) then Quarantined
            else Free
  {
  }

  /** A seat looks the same where its flag and its claims look the same. */
  lemma SameSeat(now: nat, flags: map<Id, nat>, calls: map<nat, Call>, jobs: map<nat, Job>,
                 flags': map<Id, nat>, calls': map<nat, Call>, jobs': map<nat, Job>, db: Db, t: Id)
    requires Settled(now, flags, calls, jobs, db) && Settled(now, flags', calls', jobs', db)
    requires FlagUp(now, flags, t) <==> FlagUp(now, flags', t)
    requires forall q | Unsettled(calls, jobs, q) && TicketOf(calls, q) == t ::
      Unsettled(calls', jobs', q) && calls'[q].booking == calls[q].booking
      && calls'[q].phase.Compensating? == calls[q].phase.Compensating?
    requires forall q | Unsettled(calls', jobs', q) && TicketOf(calls', q) == t ::
      Unsettled(calls, jobs, q) && TicketOf(calls, q) == t
    ensures SeatOf(now, flags', calls', jobs', db, t) == SeatOf(now, flags, calls, jobs, db, t)
  {
    if q :| Unsettled(calls', jobs', q) && TicketOf(calls', q) == t {
      ClaimedSeat(now, flags, calls, jobs, db, q);
      ClaimedSeat(now, flags', calls', jobs', db, q);
    } else {
      UnclaimedSeat(now, flags, calls, jobs, db, t);
      UnclaimedSeat(now, flags', calls', jobs', db, t);
    }
  }

  // ---- Linearisation points ----

  /** Where a step of call `c` takes the seat of its own ticket. */
  function SeatAfterCall(seat: Seat, c: Call, step: CallStep): Seat {
    match step
    case WriteFlag => Claimed(c.booking.userId)
    case RejectAdd => Quarantined
    case Compensate => Seat.Free
    case Fault(applied) => if applied then Quarantined else seat
    case Crash => if c.phase.Enqueueing? then Quarantined else seat
    case _ => seat
  }

  /** The seat a moving step of call `c` starts from. */
  predicate SeatBeforeCall(seat: Seat, c: Call, step: CallStep) {
    match step
    case WriteFlag => seat.Free?
    case RejectAdd => seat == Claimed(c.booking.userId)
    case Compensate => seat.Quarantined?
    case Fault(applied) => applied ==> seat.Free?
    case Crash => c.phase.Enqueueing? ==> seat == Claimed(c.booking.userId)
    case _ => true
  }

  lemma CallLeavesOtherSeats(now: nat, leases: map<Id, Lease>, flags: map<Id, nat>, calls: map<nat, Call>,
                             jobs: map<nat, Job>, db: Db, r: nat, step: CallStep, t: Id)
    requires JobsInv(now, calls, jobs) && CallCan(now, leases, calls, jobs, db, r, step)
    requires Settled(now, flags, calls, jobs, db)
    requires step.Arrive? || t != TicketOf(calls, r)
      || (!step.WriteFlag? && step != Fault(true) && !Unsettled(calls, jobs, r))
    requires var flags' := FlagsAfter(now, flags, calls, r, step);
      var calls' := calls[r := CallAfter(now, flags, db, calls, r, step)];
      Settled(now, flags', calls', JobsAfter(calls, jobs, r, step), db)
    ensures var flags' := FlagsAfter(now, flags, calls, r, step);
      var calls' := calls[r := CallAfter(now, flags, db, calls, r, step)];
      SeatOf(now, flags', calls', JobsAfter(calls, jobs, r, step), db, t) == SeatOf(now, flags, calls, jobs, db, t)
  {
    var flags' := FlagsAfter(now, flags, calls, r, step);
    var calls' := calls[r := CallAfter(now, flags, db, calls, r, step)];
    var jobs' := JobsAfter(calls, jobs, r, step);
    forall q | Unsettled(calls', jobs', q) && TicketOf(calls', q) == t
      ensures Unsettled(calls, jobs, q) && TicketOf(calls, q) == t
    {
      StakesAfter(now, leases, flags, calls, jobs, db, r, step, q);
    }
    SameSeat(now, flags, calls, jobs, flags', calls', jobs', db, t);
  }

  /** The seat of a call that has a claim before the step. */
  lemma ClaimantMovesSeat(now: nat, leases: map<Id, Lease>, flags: map<Id, nat>, calls: map<nat, Call>,
                          jobs: map<nat, Job>, db: Db, r: nat, step: CallStep)
    requires JobsInv(now, calls, jobs) && CallCan(now, leases, calls, jobs, db, r, step)
    requires Settled(now, flags, calls, jobs, db) && Unsettled(calls, jobs, r)
    requires var flags' := FlagsAfter(now, flags, calls, r, step);
      var calls' := calls[r := CallAfter(now, flags, db, calls, r, step)];
      Settled(now, flags', calls', JobsAfter(calls, jobs, r, step), db)
    ensures var t := TicketOf(calls, r);
      var flags' := FlagsAfter(now, flags, calls, r, step);
      var calls' := calls[r := CallAfter(now, flags, db, calls, r, step)];
      && SeatOf(now, flags', calls', JobsAfter(calls, jobs, r, step), db, t)
         == SeatAfterCall(SeatOf(now, flags, calls, jobs, db, t), calls[r], step)
      && SeatBeforeCall(SeatOf(now, flags, calls, jobs, db, t), calls[r], step)
  {
    var t := TicketOf(calls, r);
    var flags' := FlagsAfter(now, flags, calls, r, step);
    var calls' := calls[r := CallAfter(now, flags, db, calls, r, step)];
    var jobs' := JobsAfter(calls, jobs, r, step);
    ClaimedSeat(now, flags, calls, jobs, db, r);
    if Unsettled(calls', jobs', r) {
      ClaimedSeat(now, flags', calls', jobs', db, r);
    } else {
      forall q | Unsettled(calls', jobs', q) ensures TicketOf(calls', q) != t {
        StakesAfter(now, leases, flags, calls, jobs, db, r, step, q);
        assert Staked(calls, jobs, q) && Staked(calls, jobs, r);
      }
      UnclaimedSeat(now, flags', calls', jobs', db, t);
    }
  }

  /** The seat of a call that writes its flag: free until then. */
  lemma WriterMovesSeat(now: nat, leases: map<Id, Lease>, flags: map<Id, nat>, calls: map<nat, Call>,
                        jobs: map<nat, Job>, db: Db, r: nat, step: CallStep)
    requires SeatingInv(now, leases, flags, calls, jobs, db) && CallCan(now, leases, calls, jobs, db, r, step)
    requires Settled(now, flags, calls, jobs, db) && (step.WriteFlag? || step == Fault(true)) && Live(now, calls[r])
    requires var flags' := FlagsAfter(now, flags, calls, r, step);
      var calls' := calls[r := CallAfter(now, flags, db, calls, r, step)];
      Settled(now, flags', calls', JobsAfter(calls, jobs, r, step), db)
    ensures var t := TicketOf(calls, r);
      var flags' := FlagsAfter(now, flags, calls, r, step);
      var calls' := calls[r := CallAfter(now, flags, db, calls, r, step)];
      && SeatOf(now, flags, calls, jobs, db, t).Free?
      && SeatOf(now, flags', calls', JobsAfter(calls, jobs, r, step), db, t)
         == if step.WriteFlag? then Claimed(calls[r].booking.userId) else Quarantined
  {
    var t := TicketOf(calls, r);
    var flags' := FlagsAfter(now, flags, calls, r, step);
    var calls' := calls[r := CallAfter(now, flags, db, calls, r, step)];
    UnclaimedSeat(now, flags, calls, jobs, db, t);
    if step.WriteFlag? {
      ClaimedSeat(now, flags', calls', jobs, db, r);
    } else {
      UnclaimedSeat(now, flags', calls', jobs, db, t);
    }
  }

  /** Each step of a seating call moves the seat of its own ticket exactly so. */
  lemma CallMovesSeat(s: State, r: nat, step: CallStep)
    requires Inv(s) && TimelyStep(s, Seating(r, step), LEASE, LEASE, FLAG_TTL)
    requires !step.Arrive?
    ensures var t := TicketOf(s.calls, r);
      && SeatIn(CallDoes(s, r, step), t) == SeatAfterCall(SeatIn(s, t), s.calls[r], step)
      && SeatBeforeCall(SeatIn(s, t), s.calls[r], step)
  {
    var s' := CallDoes(s, r, step);
    var t := TicketOf(s.calls, r);
    SeatingKeepsInv(s, r, step);
    InvSettled(s);
    InvSettled(s');
    if Unsettled(s.calls, s.jobs, r) {
      ClaimantMovesSeat(s.now, s.leases, s.flags, s.calls, s.jobs, s.db, r, step);
    } else if step.WriteFlag? || step == Fault(true) {
      WriterMovesSeat(s.now, s.leases, s.flags, s.calls, s.jobs, s.db, r, step);
    } else {
      CallLeavesOtherSeats(s.now, s.leases, s.flags, s.calls, s.jobs, s.db, r, step, t);
    }
  }

  /** ... and no other seat. */
  lemma CallMovesOneSeat(s: State, r: nat, step: CallStep, t: Id)
    requires Inv(s) && TimelyStep(s, Seating(r, step), LEASE, LEASE, FLAG_TTL)
    requires step.Arrive? || t != TicketOf(s.calls, r)
    ensures SeatIn(CallDoes(s, r, step), t) == SeatIn(s, t)
  {
    SeatingKeepsInv(s, r, step);
    InvSettled(s);
    InvSettled(CallDoes(s, r, step));
    CallLeavesOtherSeats(s.now, s.leases, s.flags, s.calls, s.jobs, s.db, r, step, t);
  }

  // ---- The worker, the standing route and the clock ----

  /** A sale of another ticket does not show in a seat. */
  lemma SaleLeavesOtherSeats(now: nat, flags: map<Id, nat>, calls: map<nat, Call>, jobs: map<nat, Job>, db: Db,
                             b: Booking, id: Id, t: Id)
    requires SaleTransaction(db, b, id).Some? && Consistent(db)
    requires t != b.ticketId
    ensures SeatOf(now, flags, calls, jobs, SaleTransaction(db, b, id).value, t) == SeatOf(now, flags, calls, jobs, db, t)
  {
  }

  /** The attempt uses up the job's last try. */
  predicate LastTry(j: Job, ending: Ending) {
    (ending.Errored? && j.attemptsLeft == 1) || (ending.Stalled? && j.stallsLeft == 0)
  }

  /** Where the end of an attempt takes the seat of its job. */
  function SeatAfterWork(seat: Seat, j: Job, sale: Option<Id>, ending: Ending): Seat {
    if sale.Some? then Sold(j.booking.userId)
    else if LastTry(j, ending) && !j.committed then Quarantined
    else seat
  }

  /** The step moves a seat: it ends an attempt at its ticket with a sale or with the last failure. */
  predicate MovesSeat(jobs: map<nat, Job>, step: WorkerStep, t: Id) {
    && step.EndAttempt? && step.r in jobs && jobs[step.r].booking.ticketId == t
    && (step.sale.Some? || (LastTry(jobs[step.r], step.ending) && !jobs[step.r].committed))
  }

  lemma WorkerLeavesOtherSeats(now: nat, leases: map<Id, Lease>, flags: map<Id, nat>, calls: map<nat, Call>,
                               jobs: map<nat, Job>, q: Schedule, db: Db, step: WorkerStep, t: Id)
    requires ScheduleInv(jobs, q) && JobsInv(now, calls, jobs) && WorkerCan(now, jobs, q, db, step)
    requires Settled(now, flags, calls, jobs, db)
    requires Settled(now, flags, calls, WorkerJobs(now, jobs, step), WorkerDb(jobs, db, step))
    requires !MovesSeat(jobs, step, t)
    ensures SeatOf(now, flags, calls, WorkerJobs(now, jobs, step), WorkerDb(jobs, db, step), t)
         == SeatOf(now, flags, calls, jobs, db, t)
  {
    var jobs' := WorkerJobs(now, jobs, step);
    forall r | Unsettled(calls, jobs', r) ensures Unsettled(calls, jobs, r) {
      StakesAfterWork(now, calls, jobs, q, db, step, r);
    }
    forall r | Unsettled(calls, jobs', r) ensures Available(db, TicketOf(calls, r)) {}
    SameSeat(now, flags, calls, jobs, flags, calls, jobs', db, t);
    if Commits(step) {
      SaleLeavesOtherSeats(now, flags, calls, jobs', db, jobs[step.r].booking, step.sale.value, t);
    }
  }

  /** The seat of a job in progress, until its attempt ends. */
  lemma SeatInProgress(now: nat, flags: map<Id, nat>, calls: map<nat, Call>, jobs: map<nat, Job>, q: Schedule, db: Db, r: nat)
    requires ScheduleInv(jobs, q) && JobsInv(now, calls, jobs) && CommitsInv(jobs, db)
    requires Settled(now, flags, calls, jobs, db) && r in q.active
    ensures r in jobs && Staked(calls, jobs, r) && TicketOf(calls, r) == jobs[r].booking.ticketId
    ensures SeatOf(now, flags, calls, jobs, db, jobs[r].booking.ticketId)
         == if jobs[r].committed then Sold(jobs[r].booking.userId) else Claimed(jobs[r].booking.userId)
  {
    assert Scheduled(q, r);
    if !jobs[r].committed {
      ClaimedSeat(now, flags, calls, jobs, db, r);
    }
  }

  /** The end of an attempt moves the seat of its job exactly so. */
  lemma WorkerMovesSeat(now: nat, leases: map<Id, Lease>, flags: map<Id, nat>, calls: map<nat, Call>,
                        jobs: map<nat, Job>, q: Schedule, db: Db, step: WorkerStep)
    requires SeatingInv(now, leases, flags, calls, jobs, db) && ScheduleInv(jobs, q) && WorkerCan(now, jobs, q, db, step)
    requires step.EndAttempt? && Settled(now, flags, calls, jobs, db)
    requires Settled(now, flags, calls, WorkerJobs(now, jobs, step), WorkerDb(jobs, db, step))
    ensures var j := jobs[step.r];
      var seat := SeatOf(now, flags, calls, jobs, db, j.booking.ticketId);
      && seat == (if j.committed then Sold(j.booking.userId) else Claimed(j.booking.userId))
      && SeatOf(now, flags, calls, WorkerJobs(now, jobs, step), WorkerDb(jobs, db, step), j.booking.ticketId)
         == SeatAfterWork(seat, j, step.sale, step.ending)
  {
    var r := step.r;
    var t := jobs[r].booking.ticketId;
    SeatInProgress(now, flags, calls, jobs, q, db, r);
    if Commits(step) {
      SaleTouchesOneTicket(db, jobs[r].booking, step.sale.value, t, jobs[r].booking.userId);
    } else if MovesSeat(jobs, step, t) {
      LastTryQuarantines(now, flags, calls, jobs, q, db, step);
    } else {
      WorkerLeavesOtherSeats(now, leases, flags, calls, jobs, q, db, step, t);
    }
  }

  lemma LastTryQuarantines(now: nat, flags: map<Id, nat>, calls: map<nat, Call>, jobs: map<nat, Job>, q: Schedule,
                           db: Db, step: WorkerStep)
    requires ScheduleInv(jobs, q) && JobsInv(now, calls, jobs) && WorkerCan(now, jobs, q, db, step)
    requires Settled(now, flags, calls, jobs, db) && step.EndAttempt? && Unsettled(calls, jobs, step.r)
    requires step.sale.None? && LastTry(jobs[step.r], step.ending) && !jobs[step.r].committed
    ensures SeatOf(now, flags, calls, WorkerJobs(now, jobs, step), db, jobs[step.r].booking.ticketId).Quarantined?
  {
    var jobs' := WorkerJobs(now, jobs, step);
    var t := jobs[step.r].booking.ticketId;
    forall p | Unsettled(calls, jobs', p) ensures TicketOf(calls, p) != t {
      StakesAfterWork(now, calls, jobs, q, db, step, p);
      assert Staked(calls, jobs, p) && Staked(calls, jobs, step.r);
    }
    UnclaimedSeat(now, flags, calls, jobs', db, t);
  }

  /** A standing sale sells a free seat to the caller and shows in no other seat. */
  lemma StandingMovesSeat(s: State, q: nat, step: StandingStep, t: Id)
    requires Inv(s) && TimelyStep(s, Standing(q, step), LEASE, LEASE, FLAG_TTL)
    ensures step.CommitSale? && t == s.standing[q].phase.ticketId ==>
      SeatIn(s, t).Free? && SeatIn(StandingDoes(s, q, step), t) == Sold(s.standing[q].userId)
    ensures !(step.CommitSale? && t == s.standing[q].phase.ticketId) ==> SeatIn(StandingDoes(s, q, step), t) == SeatIn(s, t)
  {
    if step.CommitSale? {
      var c := s.standing[q];
      var b := Booking(c.userId, c.phase.ticketId, c.eventId);
      SaleTouchesOneTicket(s.db, b, step.id, b.ticketId, b.userId);
      if t == b.ticketId {
        UnclaimedSeat(s.now, s.flags, s.calls, s.jobs, s.db, t);
      } else {
        SaleLeavesOtherSeats(s.now, s.flags, s.calls, s.jobs, s.db, b, step.id, t);
      }
    }
  }

  /** Time frees quarantined seats and moves no other. */
  lemma TickRefines(s: State, a: Action, t: Id)
    requires a.Tick? && Enabled(s, a)
    ensures SeatIn(Apply(s, a), t) == SeatIn(s, t) || (SeatIn(s, t).Quarantined? && SeatIn(Apply(s, a), t).Free?)
  {
  }

  lemma NewEventMovesNoSeat(now: nat, flags: map<Id, nat>, calls: map<nat, Call>, jobs: map<nat, Job>, db: Db,
                            e: Id, kind: EventType, rows: map<Id, TicketRow>, t: Id)
    requires t in db.tickets && t !in rows
    ensures SeatOf(now, flags, calls, jobs, WithEvent(db, e, kind, rows), t) == SeatOf(now, flags, calls, jobs, db, t)
  {
  }

  // ---- Refinement ----

  lemma SeatingRefines(s: State, a: Action, t: Id)
    requires Inv(s) && a.Seating? && TimelyStep(s, a, LEASE, LEASE, FLAG_TTL)
    ensures StutterOrStep(SeatIn(s, t), SeatIn(Apply(s, a), t))
  {
    if !a.step.Arrive? && t == TicketOf(s.calls, a.r) {
      CallMovesSeat(s, a.r, a.step);
    } else {
      CallMovesOneSeat(s, a.r, a.step, t);
    }
  }

  lemma WorkerRefines(s: State, a: Action, t: Id)
    requires Inv(s) && a.Worker? && TimelyStep(s, a, LEASE, LEASE, FLAG_TTL)
    ensures StutterOrStep(SeatIn(s, t), SeatIn(Apply(s, a), t))
  {
    WorkerKeepsInv(s, a.work);
    InvSettled(s);
    InvSettled(Apply(s, a));
    if MovesSeat(s.jobs, a.work, t) {
      WorkerMovesSeat(s.now, s.leases, s.flags, s.calls, s.jobs, s.schedule, s.db, a.work);
    } else {
      WorkerLeavesOtherSeats(s.now, s.leases, s.flags, s.calls, s.jobs, s.schedule, s.db, a.work, t);
    }
  }

  lemma StandingRefines(s: State, a: Action, t: Id)
    requires Inv(s) && a.Standing? && TimelyStep(s, a, LEASE, LEASE, FLAG_TTL)
    ensures StutterOrStep(SeatIn(s, t), SeatIn(Apply(s, a), t))
  {
    StandingMovesSeat(s, a.q, a.move, t);
  }

  lemma NewEventRefines(s: State, a: Action, t: Id)
    requires a.CreateEvent? && Enabled(s, a) && t in s.db.tickets
    ensures SeatIn(Apply(s, a), t) == SeatIn(s, t)
  {
    NewEventMovesNoSeat(s.now, s.flags, s.calls, s.jobs, s.db, a.eventId, a.eventType, a.rows, t);
  }

  /** Every timely step is, for every seat on sale, a stutter or one step of the machine. */
  lemma StepRefines(s: State, a: Action, t: Id)
    requires Inv(s) && TimelyStep(s, a, LEASE, LEASE, FLAG_TTL) && t in s.db.tickets
    ensures StutterOrStep(SeatIn(s, t), SeatIn(Apply(s, a), t))
  {
    match a
    case Seating(_, _) => SeatingRefines(s, a, t);
    case Worker(_) => WorkerRefines(s, a, t);
    case Standing(_, _) => StandingRefines(s, a, t);
    case CreateEvent(_, _, _) => NewEventRefines(s, a, t);
    case Tick(_) => TickRefines(s, a, t);
  }
}
