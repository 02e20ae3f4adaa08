/** The ticket sale as a state machine over the four shared stores: locks, sold-out flags,
    job queue and SQL tables. One action is what happens between two awaits of one participant;
    runs interleave the actions of all participants, clock ticks and crashes in any order. */
module SaleProtocol {
  import opened Durations
  import opened Tables

  // ---- Participants ----

  datatype Answer = Granted | SoldOut | NotFound | NotAvailable | Failed

  /** Where a createSeating call is: the await it is about to perform. */
  datatype Phase =
    | Arrived
    | ReadingFlag
    | ReadingRow
    | WritingFlag
    | Enqueueing
    | Compensating
    | Releasing(answer: Answer)
    | Returned(answer: Answer)
    | Crashed

  /** A createSeating call; `lockedAt` and `flaggedAt` record when it locked and flagged its ticket. */
  datatype Call = Call(booking: Booking, phase: Phase, lockedAt: nat, flaggedAt: nat)

  /** Where a createStanding call is; `Booking` holds the ticket its find-first query returned. */
  datatype StandingPhase =
    | StandingArrived
    | Finding
    | Committing(ticketId: Id)
    | StandingReleasing(answer: Answer)
    | StandingReturned(answer: Answer)
    | StandingCrashed

  /** A createStanding call; `bought` records the ticket its transaction sold it. */
  datatype StandingCall = StandingCall(
    userId: Id, eventId: Id, phase: StandingPhase, lockedAt: nat, bought: Option<Id>)

  datatype Lease = Lease(owner: nat, until: nat)

  /** A job's life: it fails for good when its attempts are used up, or when it stalls once too often.
      `committed` records that one of its attempts has committed. */
  datatype Status = Queued | Completed | Exhausted(at: nat, byStall: bool)
  datatype Job = Job(booking: Booking, attemptsLeft: nat, stallsLeft: nat, status: Status, committed: bool)

  /** The queue's scheduling: waiting jobs in order, backed-off jobs with the time they become ready,
      the attempts in progress with the time they started, the earliest time of the next start, and `due`:
      when, with a worker idle, the head of a non-empty wait list may start. Every application instance
      runs one of the `workers`; they share the limiter. */
  datatype Schedule = Schedule(
    wait: seq<nat>, delayed: map<nat, nat>, active: map<nat, nat>, nextStart: nat, due: nat, workers: nat)

  datatype State = State(
    now: nat,
    leases: map<Id, Lease>,
    flags: map<Id, nat>,
    calls: map<nat, Call>,
    jobs: map<nat, Job>,
    schedule: Schedule,
    eventLeases: map<Id, Lease>,
    standing: map<nat, StandingCall>,
    db: Db,
    redelivered: nat)

  /** One await of a createSeating call, with its outcome. */
  datatype CallStep =
    | Arrive(booking: Booking)
    | Acquire
    | ReadFlag
    | ReadRow
    | WriteFlag
    | Enqueue
    | RejectAdd
    | Compensate
    | Release
    | Fault(applied: bool)
    | Crash

  /** What the queue learns of an attempt that ends: success, an error, or nothing, so that the job has stalled. */
  datatype Ending = Acked | Errored | Stalled

  /** What happens to an attempt in progress, or to a scheduled job. An attempt ends with its transaction
      committed, under the reservation id in `sale`, or not; the queue need not learn which. */
  datatype WorkerStep =
    | StartAttempt
    | Promote(r: nat)
    | EndAttempt(r: nat, sale: Option<Id>, ending: Ending)

  /** One await of a createStanding call, with its outcome. A commit may go through although the caller gets an
      error instead of its report. */
  datatype StandingStep =
    | ArriveStanding(userId: Id, eventId: Id)
    | AcquireEvent
    | FindTicket(found: Option<Id>)
    | CommitSale(id: Id, reported: bool)
    | ReleaseEvent
    | FaultStanding
    | CrashStanding

  datatype Action =
    | Tick(duration: nat)
    | Seating(r: nat, step: CallStep)
    | Worker(work: WorkerStep)
    | Standing(q: nat, move: StandingStep)
    | CreateEvent(eventId: Id, eventType: EventType, rows: map<Id, TicketRow>)

  // ---- Reading the stores ----

  predicate FlagUp(now: nat, flags: map<Id, nat>, t: Id) {
    t in flags && now < flags[t]
  }

  predicate LeaseFree(leases: map<Id, Lease>, key: Id, now: nat) {
    key !in leases || leases[key].until <= now
  }

  function Without(leases: map<Id, Lease>, key: Id, owner: nat): map<Id, Lease> {
    if key in leases && leases[key].owner == owner then leases - {key} else leases
  }

  predicate Holding(p: Phase) {
    p.ReadingFlag? || p.ReadingRow? || p.WritingFlag? || p.Enqueueing? || p.Compensating? || p.Releasing?
  }

  predicate HoldingEvent(p: StandingPhase) {
    p.Finding? || p.Committing? || p.StandingReleasing?
  }

  // ---- Queue contract ----

  function Push(q: Schedule, r: nat, now: nat): Schedule {
    q.(wait := q.wait + [r], due := if q.wait == [] then Max(q.nextStart, now) else q.due)
  }

  function PushFront(q: Schedule, r: nat, now: nat): Schedule {
    q.(wait := [r] + q.wait, due := if q.wait == [] then Max(q.nextStart, now) else q.due)
  }

  predicate WorkerIdle(q: Schedule) {
    |q.active| < q.workers
  }

  /** The attempt at `r` is over; if every worker was busy, only now may the next one start. */
  function Finished(q: Schedule, r: nat, now: nat): Schedule {
    q.(active := q.active - {r}, due := if WorkerIdle(q) then q.due else Max(q.due, now))
  }

  predicate CanStart(q: Schedule, now: nat) {
    q.wait != [] && WorkerIdle(q) && q.nextStart <= now
  }

  // ---- Actions ----

  /** No call or ticket row names the ids of an event that is only now being created. */
  predicate FreshEvent(s: State, e: Id, rows: map<Id, TicketRow>) {
    && e !in s.db.events
    && (forall q | q in s.standing :: s.standing[q].eventId != e)
    && (forall t | t in rows :: t !in s.db.tickets && rows[t].eventId == e
                               && rows[t].isAvailable && rows[t].reservationId.None?)
    && (forall r | r in s.calls :: s.calls[r].booking.ticketId !in rows)
  }

  /** Seating requests name tickets of SEATING events; unknown tickets are allowed. */
  predicate SeatingRequest(db: Db, t: Id) {
    t in db.tickets ==> db.tickets[t].eventId in db.events && db.events[db.tickets[t].eventId].SEATING?
  }

  predicate StandingRequest(db: Db, e: Id) {
    e in db.events ==> db.events[e].STANDING?
  }

  // createSeating: one function per store, each listing only the steps that write it

  predicate At(calls: map<nat, Call>, r: nat, p: Phase) {
    r in calls && calls[r].phase == p
  }

  /** The await of this phase can reject. */
  predicate CanFault(p: Phase, applied: bool) {
    if applied then p.WritingFlag?
    else p.Arrived? || p.ReadingFlag? || p.ReadingRow? || p.WritingFlag? || p.Compensating?
  }

  function NewJob(b: Booking): Job {
    Job(b, ATTEMPTS, MAX_STALLS, Queued, false)
  }

  predicate CallCan(now: nat, leases: map<Id, Lease>, calls: map<nat, Call>, jobs: map<nat, Job>, db: Db,
                    r: nat, step: CallStep) {
    match step
    case Arrive(b) => r !in calls && SeatingRequest(db, b.ticketId)
    case Acquire => At(calls, r, Arrived) && LeaseFree(leases, calls[r].booking.ticketId, now)
    case ReadFlag => At(calls, r, ReadingFlag)
    case ReadRow => At(calls, r, ReadingRow)
    case WriteFlag => At(calls, r, WritingFlag)
    case Enqueue => At(calls, r, Enqueueing) && r !in jobs
    case RejectAdd => At(calls, r, Enqueueing)
    case Compensate => At(calls, r, Compensating)
    case Release => r in calls && calls[r].phase.Releasing?
    case Fault(applied) => r in calls && CanFault(calls[r].phase, applied)
    case Crash => r in calls && !calls[r].phase.Returned?
  }

  function CallAfter(now: nat, flags: map<Id, nat>, db: Db, calls: map<nat, Call>, r: nat, step: CallStep): Call
    requires step.Arrive? || r in calls
    requires step.Release? ==> calls[r].phase.Releasing?
  {
    match step
    case Arrive(b) => Call(b, Arrived, 0, 0)
    case Acquire => calls[r].(phase := ReadingFlag, lockedAt := now)
    case ReadFlag =>
      calls[r].(phase := if FlagUp(now, flags, calls[r].booking.ticketId) then Releasing(SoldOut) else ReadingRow)
    case ReadRow =>
      var t := calls[r].booking.ticketId;
      calls[r].(phase := if t !in db.tickets then Releasing(NotFound)
                         else if !db.tickets[t].isAvailable then Releasing(NotAvailable)
                         else WritingFlag)
    case WriteFlag => calls[r].(phase := Enqueueing, flaggedAt := now)
    case Enqueue => calls[r].(phase := Releasing(Granted))
    case RejectAdd => calls[r].(phase := Compensating)
    case Compensate => calls[r].(phase := Releasing(Failed))
    case Release => calls[r].(phase := Returned(calls[r].phase.answer))
    case Fault(_) => calls[r].(phase := if calls[r].phase.Arrived? then Returned(Failed) else Releasing(Failed))
    case Crash => calls[r].(phase := Crashed)
  }

  function LeasesAfter(now: nat, leases: map<Id, Lease>, calls: map<nat, Call>, r: nat, step: CallStep): map<Id, Lease>
    requires step.Arrive? || r in calls
  {
    match step
    case Acquire => leases[calls[r].booking.ticketId := Lease(r, now + LEASE)]
    case Release => Without(leases, calls[r].booking.ticketId, r)
    case _ => leases
  }

  function FlagsAfter(now: nat, flags: map<Id, nat>, calls: map<nat, Call>, r: nat, step: CallStep): map<Id, nat>
    requires step.Arrive? || r in calls
  {
    match step
    case WriteFlag => flags[calls[r].booking.ticketId := now + FLAG_TTL]
    case Fault(applied) => if applied then flags[calls[r].booking.ticketId := now + FLAG_TTL] else flags
    case Compensate => flags - {calls[r].booking.ticketId}
    case _ => flags
  }

  function JobsAfter(calls: map<nat, Call>, jobs: map<nat, Job>, r: nat, step: CallStep): map<nat, Job>
    requires step.Arrive? || r in calls
  {
    if step.Enqueue? then jobs[r := NewJob(calls[r].booking)] else jobs
  }

  function CallDoes(s: State, r: nat, step: CallStep): State
    requires CallCan(s.now, s.leases, s.calls, s.jobs, s.db, r, step)
  {
    s.(leases := LeasesAfter(s.now, s.leases, s.calls, r, step),
       flags := FlagsAfter(s.now, s.flags, s.calls, r, step),
       calls := s.calls[r := CallAfter(s.now, s.flags, s.db, s.calls, r, step)],
       jobs := JobsAfter(s.calls, s.jobs, r, step),
       schedule := if step.Enqueue? then Push(s.schedule, r, s.now) else s.schedule)
  }

  // ReservationConsumer: the attempts in progress

  predicate Commits(step: WorkerStep) {
    step.EndAttempt? && step.sale.Some?
  }

  predicate WorkerCan(now: nat, jobs: map<nat, Job>, q: Schedule, db: Db, step: WorkerStep) {
    match step
    case StartAttempt => CanStart(q, now)
    case Promote(r) => r in q.delayed && q.delayed[r] <= now
    case EndAttempt(r, sale, ending) =>
      && r in q.active && r in jobs
      && (ending.Acked? ==> sale.Some?)
      && (ending.Errored? ==> jobs[r].attemptsLeft > 0)
      && (sale.Some? ==> SaleTransaction(db, jobs[r].booking, sale.value).Some?)
  }

  function JobAfter(now: nat, j: Job, sold: bool, ending: Ending): Job
    requires ending.Errored? ==> j.attemptsLeft > 0
  {
    var k := j.(committed := j.committed || sold);
    match ending
    case Acked => k.(status := Completed)
    case Errored =>
      k.(attemptsLeft := j.attemptsLeft - 1, status := if j.attemptsLeft == 1 then Exhausted(now, false) else j.status)
    case Stalled =>
      if j.stallsLeft == 0 then k.(status := Exhausted(now, true)) else k.(stallsLeft := j.stallsLeft - 1)
  }

  function WorkerJobs(now: nat, jobs: map<nat, Job>, step: WorkerStep): map<nat, Job>
    requires step.EndAttempt? ==> step.r in jobs && (step.ending.Errored? ==> jobs[step.r].attemptsLeft > 0)
  {
    if step.EndAttempt? then jobs[step.r := JobAfter(now, jobs[step.r], step.sale.Some?, step.ending)] else jobs
  }

  /** A job that has not ended goes to the delayed jobs after an error, to the front after a stall. */
  function ScheduleAfter(now: nat, jobs: map<nat, Job>, q: Schedule, step: WorkerStep): Schedule
    requires step.StartAttempt? ==> q.wait != []
    requires step.EndAttempt? ==> step.r in jobs
  {
    match step
    case StartAttempt =>
      q.(wait := q.wait[1..], active := q.active[q.wait[0] := now],
         nextStart := now + LIMITER_DURATION, due := now + LIMITER_DURATION)
    case Promote(r) => Push(q.(delayed := q.delayed - {r}), r, now)
    case EndAttempt(r, _, ending) =>
      match ending
      case Acked => Finished(q, r, now)
      case Errored =>
        if jobs[r].attemptsLeft == 1 then Finished(q, r, now)
        else Finished(q, r, now).(delayed := q.delayed[r := now + BACKOFF])
      case Stalled =>
        if jobs[r].stallsLeft == 0 then Finished(q, r, now) else PushFront(Finished(q, r, now), r, now)
  }

  /** The tables after a commit; a second commit of the same job is a redelivery. */
  function WorkerDb(jobs: map<nat, Job>, db: Db, step: WorkerStep): Db
    requires Commits(step) ==> step.r in jobs && SaleTransaction(db, jobs[step.r].booking, step.sale.value).Some?
  {
    if Commits(step) then SaleTransaction(db, jobs[step.r].booking, step.sale.value).value else db
  }

  function WorkerDoes(s: State, step: WorkerStep): State
    requires WorkerCan(s.now, s.jobs, s.schedule, s.db, step)
  {
    var again := Commits(step) && s.jobs[step.r].committed;
    s.(jobs := WorkerJobs(s.now, s.jobs, step),
       schedule := ScheduleAfter(s.now, s.jobs, s.schedule, step),
       db := WorkerDb(s.jobs, s.db, step),
       redelivered := if again then s.redelivered + 1 else s.redelivered)
  }

  // createStanding

  predicate AtStanding(standing: map<nat, StandingCall>, q: nat, p: StandingPhase) {
    q in standing && standing[q].phase == p
  }

  /** What the find-first query of a transaction may return. */
  predicate Finds(db: Db, e: Id, found: Option<Id>) {
    match found
    case Some(t) => t in FreeTickets(db, e)
    case None => FreeTickets(db, e) == {}
  }

  function SaleResult(db: Db, c: StandingCall, id: Id): Option<Db>
    requires c.phase.Committing?
  {
    SaleTransaction(db, Booking(c.userId, c.phase.ticketId, c.eventId), id)
  }

  predicate StandingCan(now: nat, eventLeases: map<Id, Lease>, standing: map<nat, StandingCall>, db: Db,
                        q: nat, step: StandingStep) {
    match step
    case ArriveStanding(u, e) => q !in standing && StandingRequest(db, e)
    case AcquireEvent => AtStanding(standing, q, StandingArrived) && LeaseFree(eventLeases, standing[q].eventId, now)
    case FindTicket(found) =>
      && AtStanding(standing, q, Finding)
      && standing[q].eventId in db.events && standing[q].userId in db.users
      && Finds(db, standing[q].eventId, found)
    case CommitSale(id, _) => q in standing && standing[q].phase.Committing? && SaleResult(db, standing[q], id).Some?
    case ReleaseEvent => q in standing && standing[q].phase.StandingReleasing?
    case FaultStanding =>
      q in standing && (standing[q].phase.StandingArrived? || standing[q].phase.Finding? || standing[q].phase.Committing?)
    case CrashStanding => q in standing && !standing[q].phase.StandingReturned?
  }

  function StandingCallAfter(now: nat, standing: map<nat, StandingCall>, q: nat, step: StandingStep): StandingCall
    requires step.ArriveStanding? || q in standing
    requires step.CommitSale? ==> standing[q].phase.Committing?
    requires step.ReleaseEvent? ==> standing[q].phase.StandingReleasing?
  {
    match step
    case ArriveStanding(u, e) => StandingCall(u, e, StandingArrived, 0, None)
    case AcquireEvent => standing[q].(phase := Finding, lockedAt := now)
    case FindTicket(found) =>
      standing[q].(phase := if found.Some? then Committing(found.value) else StandingReleasing(NotFound))
    case CommitSale(_, reported) =>
      standing[q].(phase := StandingReleasing(if reported then Granted else Failed), bought := Some(standing[q].phase.ticketId))
    case ReleaseEvent => standing[q].(phase := StandingReturned(standing[q].phase.answer))
    case FaultStanding =>
      standing[q].(phase := if standing[q].phase.StandingArrived? then StandingReturned(Failed) else StandingReleasing(Failed))
    case CrashStanding => standing[q].(phase := StandingCrashed)
  }

  function EventLeasesAfter(now: nat, eventLeases: map<Id, Lease>, standing: map<nat, StandingCall>,
                            q: nat, step: StandingStep): map<Id, Lease>
    requires step.ArriveStanding? || q in standing
  {
    match step
    case AcquireEvent => eventLeases[standing[q].eventId := Lease(q, now + LEASE)]
    case ReleaseEvent => Without(eventLeases, standing[q].eventId, q)
    case _ => eventLeases
  }

  function StandingDb(db: Db, standing: map<nat, StandingCall>, q: nat, step: StandingStep): Db
    requires step.CommitSale? ==> q in standing && standing[q].phase.Committing? && SaleResult(db, standing[q], step.id).Some?
  {
    if step.CommitSale? then SaleResult(db, standing[q], step.id).value else db
  }

  function StandingDoes(s: State, q: nat, step: StandingStep): State
    requires StandingCan(s.now, s.eventLeases, s.standing, s.db, q, step)
  {
    s.(eventLeases := EventLeasesAfter(s.now, s.eventLeases, s.standing, q, step),
       standing := s.standing[q := StandingCallAfter(s.now, s.standing, q, step)],
       db := StandingDb(s.db, s.standing, q, step))
  }

  // All participants

  function WithEvent(db: Db, e: Id, kind: EventType, rows: map<Id, TicketRow>): Db {
    db.(events := db.events[e := kind], tickets := db.tickets + rows)
  }

  predicate Enabled(s: State, a: Action) {
    match a
    case Tick(d) => d > 0
    case Seating(r, step) => CallCan(s.now, s.leases, s.calls, s.jobs, s.db, r, step)
    case Worker(step) => WorkerCan(s.now, s.jobs, s.schedule, s.db, step)
    case Standing(q, step) => StandingCan(s.now, s.eventLeases, s.standing, s.db, q, step)
    case CreateEvent(e, _, rows) => FreshEvent(s, e, rows)
  }

  function Apply(s: State, a: Action): State
    requires Enabled(s, a)
  {
    match a
    case Tick(d) => s.(now := s.now + d)
    case Seating(r, step) => CallDoes(s, r, step)
    case Worker(step) => WorkerDoes(s, step)
    case Standing(q, step) => StandingDoes(s, q, step)
    case CreateEvent(e, k, rows) => s.(db := WithEvent(s.db, e, k, rows))
  }

  // ---- Runs ----

  ghost predicate Init(s: State) {
    && s.leases == map[] && s.flags == map[] && s.calls == map[] && s.jobs == map[]
    && s.eventLeases == map[] && s.standing == map[]
    && s.schedule.wait == [] && s.schedule.delayed == map[] && s.schedule.active == map[]
    && s.schedule.nextStart <= s.now && s.schedule.workers >= 1
    && Consistent(s.db) && |s.db.reservations| == |SoldTickets(s.db)| && s.redelivered == 0
    && (forall t | t in s.db.tickets :: s.db.tickets[t].eventId in s.db.events)
  }

  /** `states[i + 1]` is what action `acts[i]` makes of `states[i]`. */
  predicate StepAt(states: seq<State>, acts: seq<Action>, i: nat) {
    i + 1 < |states| && i < |acts| && Enabled(states[i], acts[i]) && states[i + 1] == Apply(states[i], acts[i])
  }

  predicate Run(states: seq<State>, acts: seq<Action>) {
    |states| == |acts| + 1 && (forall i: nat | i < |acts| :: StepAt(states, acts, i))
  }
}
