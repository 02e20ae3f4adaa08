/** The invariant over whole runs, and what it says about them. */
module SaleRuns {
  import opened Durations
  import opened Tables
  import opened SaleProtocol
  import opened SaleInvariant
  import opened SeatingSteps
  import opened WorkerSteps
  import opened StandingSteps

  /** A step within the timing windows: flags written within `w` and standing sales committed within `v`
      of locking, claims never older than `d`. */
  ghost predicate TimelyStep(s: State, a: Action, w: nat, v: nat, d: nat) {
    && Enabled(s, a)
    && WritesWithin(s, a, w, v)
    && ClaimsYoungerThan(s, d)
    && ClaimsYoungerThan(Apply(s, a), d)
  }

  ghost predicate TimelyAt(states: seq<State>, acts: seq<Action>, w: nat, v: nat, d: nat, i: nat) {
    i < |acts| && i < |states| && TimelyStep(states[i], acts[i], w, v, d)
  }

  ghost predicate TimelyRun(states: seq<State>, acts: seq<Action>, w: nat, v: nat, d: nat) {
    && Run(states, acts)
    && Init(states[0])
    && (forall i: nat | i < |acts| :: TimelyAt(states, acts, w, v, d, i))
  }

  /** A run goes on with any enabled action. */
  lemma RunGrows(xs: seq<State>, bs: seq<Action>, a: Action)
    requires Run(xs, bs) && Enabled(xs[|bs|], a)
    ensures Run(xs + [Apply(xs[|bs|], a)], bs + [a])
  {
    var states, acts := xs + [Apply(xs[|bs|], a)], bs + [a];
    forall i: nat | i < |acts| ensures StepAt(states, acts, i) {
      if i < |bs| {
        assert StepAt(xs, bs, i);
      }
    }
  }

  lemma ScheduleKeptByEnqueue(now: nat, jobs: map<nat, Job>, q: Schedule, r: nat, j: Job)
    requires ScheduleInv(jobs, q) && r !in jobs && j.status.Queued?
    ensures ScheduleInv(jobs[r := j], Push(q, r, now))
  {
    assert !Scheduled(q, r);
    forall p ensures Scheduled(Push(q, r, now), p) <==> Scheduled(q, p) || p == r {}
  }

  /** The schedule's part of the invariant needs no timing. */
  lemma StepKeepsSchedule(s: State, a: Action)
    requires ScheduleInv(s.jobs, s.schedule) && Enabled(s, a)
    ensures ScheduleInv(Apply(s, a).jobs, Apply(s, a).schedule)
  {
    match a
    case Seating(r, step) =>
      if step.Enqueue? {
        ScheduleKeptByEnqueue(s.now, s.jobs, s.schedule, r, NewJob(s.calls[r].booking));
      }
    case Worker(step) => ScheduleKeptByWork(s.now, s.jobs, s.schedule, s.db, step);
    case _ =>
  }

  lemma SeatingKeepsInv(s: State, r: nat, step: CallStep)
    requires Inv(s) && TimelyStep(s, Seating(r, step), LEASE, LEASE, FLAG_TTL)
    ensures Inv(CallDoes(s, r, step))
  {
    SeatingKept(s.now, s.leases, s.flags, s.calls, s.jobs, s.db, r, step);
    if step.Enqueue? {
      ScheduleKeptByEnqueue(s.now, s.jobs, s.schedule, r, NewJob(s.calls[r].booking));
    }
  }

  /** A first delivery sells one available ticket; a redelivery adds a reservation and sells nothing. */
  lemma TablesKeptByWork(now: nat, leases: map<Id, Lease>, flags: map<Id, nat>, calls: map<nat, Call>, jobs: map<nat, Job>,
                         q: Schedule, db: Db, redelivered: nat, step: WorkerStep)
    requires SeatingInv(now, leases, flags, calls, jobs, db) && ScheduleInv(jobs, q) && TablesInv(db, redelivered)
    requires Commits(step) && WorkerCan(now, jobs, q, db, step)
    ensures TablesInv(WorkerDb(jobs, db, step), if jobs[step.r].committed then redelivered + 1 else redelivered)
  {
    CommitTouchesOwnTicketOnly(now, leases, flags, calls, jobs, q, db, step.r, step.r);
    SaleKeepsConsistent(db, jobs[step.r].booking, step.sale.value);
  }

  lemma WorkerKeepsInv(s: State, step: WorkerStep)
    requires Inv(s) && TimelyStep(s, Worker(step), LEASE, LEASE, FLAG_TTL)
    ensures Inv(WorkerDoes(s, step))
  {
    SeatingKeptByWork(s.now, s.leases, s.flags, s.calls, s.jobs, s.schedule, s.db, step);
    ScheduleKeptByWork(s.now, s.jobs, s.schedule, s.db, step);
    if Commits(step) {
      TablesKeptByWork(s.now, s.leases, s.flags, s.calls, s.jobs, s.schedule, s.db, s.redelivered, step);
      StandingKeptBySeatingSale(s.now, s.eventLeases, s.standing, s.db, s.jobs[step.r].booking, step.sale.value);
    }
  }

  lemma StandingKeepsInv(s: State, q: nat, step: StandingStep)
    requires Inv(s) && TimelyStep(s, Standing(q, step), LEASE, LEASE, FLAG_TTL)
    ensures Inv(StandingDoes(s, q, step))
  {
    StandingKept(s.now, s.eventLeases, s.standing, s.db, q, step);
    if step.CommitSale? {
      var c := s.standing[q];
      var b := Booking(c.userId, c.phase.ticketId, c.eventId);
      SeatingKeptByStandingSale(s.now, s.leases, s.flags, s.calls, s.jobs, s.db, b, step.id);
      SaleKeepsConsistent(s.db, b, step.id);
    }
  }

  lemma NewEventKeepsInv(s: State, e: Id, kind: EventType, rows: map<Id, TicketRow>)
    requires Inv(s) && FreshEvent(s, e, rows)
    ensures Inv(Apply(s, CreateEvent(e, kind, rows)))
  {
    SeatingKeptByNewEvent(s, e, kind, rows);
    StandingKeptByNewEvent(s, e, kind, rows);
    TablesKeptByNewEvent(s, e, kind, rows);
  }

  /** Every timely step of every participant keeps the invariant. */
  lemma StepKeepsInv(s: State, a: Action)
    requires Inv(s) && TimelyStep(s, a, LEASE, LEASE, FLAG_TTL)
    ensures Inv(Apply(s, a))
  {
    match a
    case Tick(d) =>
      TickKeepsSeating(s.now, s.leases, s.flags, s.calls, s.jobs, s.db, d);
      TickKeepsStanding(s.now, s.eventLeases, s.standing, s.db, d);
    case Seating(r, step) => SeatingKeepsInv(s, r, step);
    case Worker(step) => WorkerKeepsInv(s, step);
    case Standing(q, step) => StandingKeepsInv(s, q, step);
    case CreateEvent(e, kind, rows) => NewEventKeepsInv(s, e, kind, rows);
  }

  /** Every state of a run that has been timely so far satisfies the invariant. */
  lemma {:induction false} RunKeepsInv(states: seq<State>, acts: seq<Action>, w: nat, v: nat, d: nat, i: nat)
    requires Run(states, acts) && Init(states[0]) && i <= |acts| && w <= LEASE && v <= LEASE && d <= FLAG_TTL
    requires forall k: nat | k < i :: TimelyAt(states, acts, w, v, d, k)
    ensures Inv(states[i])
  {
    if i == 0 {
      InitInv(states[0]);
    } else {
      RunKeepsInv(states, acts, w, v, d, i - 1);
      assert StepAt(states, acts, i - 1) && TimelyAt(states, acts, w, v, d, i - 1);
      StepKeepsInv(states[i - 1], acts[i - 1]);
    }
  }
}
