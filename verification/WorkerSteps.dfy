/** Clock ticks, the queue's worker and event creation keep the invariant of the seating route. */
module WorkerSteps {
  import opened Tables
  import opened SaleProtocol
  import opened SaleInvariant

  lemma TickKeepsSeating(now: nat, leases: map<Id, Lease>, flags: map<Id, nat>, calls: map<nat, Call>,
                         jobs: map<nat, Job>, db: Db, d: nat)
    requires SeatingInv(now, leases, flags, calls, jobs, db)
    ensures SeatingInv(now + d, leases, flags, calls, jobs, db)
  {
  }

  lemma TickKeepsStanding(now: nat, eventLeases: map<Id, Lease>, standing: map<nat, StandingCall>, db: Db, d: nat)
    requires StandingInv(now, eventLeases, standing, db)
    ensures StandingInv(now + d, eventLeases, standing, db)
  {
  }

  /** The worker never makes a claim; it only settles the claim of a job in progress. */
  lemma StakesAfterWork(now: nat, calls: map<nat, Call>, jobs: map<nat, Job>, q: Schedule, db: Db, step: WorkerStep, r: nat)
    requires ScheduleInv(jobs, q) && WorkerCan(now, jobs, q, db, step)
    ensures var jobs' := WorkerJobs(now, jobs, step);
      && (Staked(calls, jobs', r) ==> Staked(calls, jobs, r))
      && (Unsettled(calls, jobs', r) ==> Unsettled(calls, jobs, r))
      && (Commits(step) && r == step.r && Unsettled(calls, jobs', r) ==>
            calls[r].phase.Enqueueing? || calls[r].phase.Compensating?)
  {
  }

  lemma JobsKeptByWork(now: nat, calls: map<nat, Call>, jobs: map<nat, Job>, q: Schedule, db: Db, step: WorkerStep)
    requires JobsInv(now, calls, jobs) && ScheduleInv(jobs, q) && WorkerCan(now, jobs, q, db, step)
    ensures JobsInv(now, calls, WorkerJobs(now, jobs, step))
  {
  }

  lemma OneStakeKeptByWork(now: nat, calls: map<nat, Call>, jobs: map<nat, Job>, q: Schedule, db: Db, step: WorkerStep)
    requires OneStakePerTicket(calls, jobs) && ScheduleInv(jobs, q) && WorkerCan(now, jobs, q, db, step)
    ensures OneStakePerTicket(calls, WorkerJobs(now, jobs, step))
  {
    forall r | Staked(calls, WorkerJobs(now, jobs, step), r) ensures Staked(calls, jobs, r) {
      StakesAfterWork(now, calls, jobs, q, db, step, r);
    }
  }

  /** Whoever else has a live check or an open claim has it on another ticket than one being sold. */
  lemma CommitTouchesOwnTicketOnly(now: nat, leases: map<Id, Lease>, flags: map<Id, nat>, calls: map<nat, Call>,
                                   jobs: map<nat, Job>, q: Schedule, db: Db, j: nat, r: nat)
    requires SeatingInv(now, leases, flags, calls, jobs, db) && ScheduleInv(jobs, q)
    requires j in q.active && r in calls && TicketOf(calls, r) == jobs[j].booking.ticketId
    ensures Staked(calls, jobs, r) ==> r == j
    ensures calls[r].phase.WritingFlag? ==> !Live(now, calls[r])
    ensures jobs[j].committed || Available(db, TicketOf(calls, r))
  {
    assert Scheduled(q, j);
    assert Staked(calls, jobs, j);
    assert !jobs[j].committed ==> Unsettled(calls, jobs, j);
  }

  lemma ClaimsKeptByWork(now: nat, leases: map<Id, Lease>, flags: map<Id, nat>, calls: map<nat, Call>,
                         jobs: map<nat, Job>, q: Schedule, db: Db, step: WorkerStep)
    requires SeatingInv(now, leases, flags, calls, jobs, db) && ScheduleInv(jobs, q) && WorkerCan(now, jobs, q, db, step)
    ensures ClaimsInv(now, flags, calls, WorkerJobs(now, jobs, step), WorkerDb(jobs, db, step))
  {
    var db' := WorkerDb(jobs, db, step);
    forall r | Unsettled(calls, WorkerJobs(now, jobs, step), r)
      ensures Unsettled(calls, jobs, r) && Available(db', TicketOf(calls, r))
    {
      StakesAfterWork(now, calls, jobs, q, db, step, r);
      if Commits(step) {
        assert Scheduled(q, step.r);
        assert Staked(calls, jobs, step.r) && Staked(calls, jobs, r);
      }
    }
  }

  lemma ChecksKeptByWork(now: nat, leases: map<Id, Lease>, flags: map<Id, nat>, calls: map<nat, Call>,
                         jobs: map<nat, Job>, q: Schedule, db: Db, step: WorkerStep)
    requires SeatingInv(now, leases, flags, calls, jobs, db) && ScheduleInv(jobs, q) && WorkerCan(now, jobs, q, db, step)
    ensures ChecksInv(now, flags, calls, WorkerJobs(now, jobs, step), WorkerDb(jobs, db, step))
  {
    forall r | Unsettled(calls, WorkerJobs(now, jobs, step), r) ensures Unsettled(calls, jobs, r) {
      StakesAfterWork(now, calls, jobs, q, db, step, r);
    }
    forall r | r in calls && calls[r].phase.WritingFlag? && Live(now, calls[r])
      ensures Available(WorkerDb(jobs, db, step), TicketOf(calls, r))
    {
      if Commits(step) && TicketOf(calls, r) == jobs[step.r].booking.ticketId {
        CommitTouchesOwnTicketOnly(now, leases, flags, calls, jobs, q, db, step.r, r);
      }
    }
  }

  lemma CommitsKeptByWork(now: nat, leases: map<Id, Lease>, flags: map<Id, nat>, calls: map<nat, Call>,
                          jobs: map<nat, Job>, q: Schedule, db: Db, step: WorkerStep)
    requires SeatingInv(now, leases, flags, calls, jobs, db) && ScheduleInv(jobs, q) && WorkerCan(now, jobs, q, db, step)
    ensures CommitsInv(WorkerJobs(now, jobs, step), WorkerDb(jobs, db, step))
  {
    var jobs' := WorkerJobs(now, jobs, step);
    var db' := WorkerDb(jobs, db, step);
    forall r | r in jobs' && jobs'[r].committed
      ensures SoldTo(db', jobs'[r].booking.ticketId, jobs'[r].booking.userId)
    {
      var b := jobs'[r].booking;
      if Commits(step) {
        SaleTouchesOneTicket(db, jobs[step.r].booking, step.sale.value, b.ticketId, b.userId);
        if r != step.r {
          assert Scheduled(q, step.r);
          assert Staked(calls, jobs, r) && Staked(calls, jobs, step.r);
        }
      }
    }
  }

  /** A job moves within the schedule, or leaves it when it is no longer queued. */
  lemma MovedBySchedule(now: nat, jobs: map<nat, Job>, q: Schedule, db: Db, step: WorkerStep, r: nat)
    requires ScheduleInv(jobs, q) && WorkerCan(now, jobs, q, db, step)
    ensures var q' := ScheduleAfter(now, jobs, q, step);
      && (Scheduled(q', r) ==> Scheduled(q, r))
      && (Scheduled(q, r) ==>
            Scheduled(q', r) || (r in q.active && !WorkerJobs(now, jobs, step)[r].status.Queued?))
      && (Scheduled(q', r) ==> WorkerJobs(now, jobs, step)[r].status.Queued?)
  {
    if step.StartAttempt? {
      assert q.wait == [q.wait[0]] + ScheduleAfter(now, jobs, q, step).wait;
    }
  }

  /** Each job is in one place of the schedule. */
  ghost predicate OnePlace(q: Schedule) {
    && (forall i, j | 0 <= i < j < |q.wait| :: q.wait[i] != q.wait[j])
    && (forall r | r in q.wait :: r !in q.delayed && r !in q.active)
    && (forall r | r in q.active :: r !in q.delayed)
  }

  lemma OnePlaceKept(now: nat, jobs: map<nat, Job>, q: Schedule, db: Db, step: WorkerStep)
    requires OnePlace(q) && WorkerCan(now, jobs, q, db, step)
    ensures OnePlace(ScheduleAfter(now, jobs, q, step))
  {
  }

  lemma ScheduleKeptByWork(now: nat, jobs: map<nat, Job>, q: Schedule, db: Db, step: WorkerStep)
    requires ScheduleInv(jobs, q) && WorkerCan(now, jobs, q, db, step)
    ensures ScheduleInv(WorkerJobs(now, jobs, step), ScheduleAfter(now, jobs, q, step))
  {
    var q' := ScheduleAfter(now, jobs, q, step);
    OnePlaceKept(now, jobs, q, db, step);
    forall r
      ensures Scheduled(q', r) ==> Scheduled(q, r) && WorkerJobs(now, jobs, step)[r].status.Queued?
      ensures Scheduled(q, r) ==>
        Scheduled(q', r) || (r in q.active && !WorkerJobs(now, jobs, step)[r].status.Queued?)
    {
      MovedBySchedule(now, jobs, q, db, step, r);
    }
  }

  /** No step of the worker removes a ticket or an event. */
  lemma RequestsKeptByWork(now: nat, flags: map<Id, nat>, calls: map<nat, Call>, jobs: map<nat, Job>, q: Schedule,
                           db: Db, step: WorkerStep)
    requires RequestsInv(calls, db) && FlagsInv(flags, db) && WorkerCan(now, jobs, q, db, step)
    ensures RequestsInv(calls, WorkerDb(jobs, db, step)) && FlagsInv(flags, WorkerDb(jobs, db, step))
  {
  }

  lemma SeatingKeptByWork(now: nat, leases: map<Id, Lease>, flags: map<Id, nat>, calls: map<nat, Call>,
                          jobs: map<nat, Job>, q: Schedule, db: Db, step: WorkerStep)
    requires SeatingInv(now, leases, flags, calls, jobs, db) && ScheduleInv(jobs, q) && WorkerCan(now, jobs, q, db, step)
    ensures SeatingInv(now, leases, flags, calls, WorkerJobs(now, jobs, step), WorkerDb(jobs, db, step))
  {
    JobsKeptByWork(now, calls, jobs, q, db, step);
    OneStakeKeptByWork(now, calls, jobs, q, db, step);
    ClaimsKeptByWork(now, leases, flags, calls, jobs, q, db, step);
    ChecksKeptByWork(now, leases, flags, calls, jobs, q, db, step);
    CommitsKeptByWork(now, leases, flags, calls, jobs, q, db, step);
    RequestsKeptByWork(now, flags, calls, jobs, q, db, step);
  }
}
