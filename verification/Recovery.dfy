/** What holds over every run, timely or not: after a quiet day every ticket is sold or on sale
    again, jobs are attempted a bounded number of times, and failed attempts leave no trace. */
module Recovery {
  import opened Durations
  import opened Tables
  import opened SaleProtocol
  import opened SaleInvariant
  import opened WorkerSteps
  import opened StandingSteps
  import opened SaleRuns
  import opened SeatMachine
  import opened SaleTheorems
  import opened Reachable

  ghost predicate AttemptsInv(calls: map<nat, Call>, jobs: map<nat, Job>) {
    forall r | r in jobs :: r in calls && (jobs[r].status.Queued? ==> 1 <= jobs[r].attemptsLeft <= ATTEMPTS)
  }

  /** No flag outlives a day, no lease its five seconds. */
  ghost predicate LifetimesInv(now: nat, leases: map<Id, Lease>, flags: map<Id, nat>, eventLeases: map<Id, Lease>) {
    && (forall t | t in flags :: flags[t] <= now + FLAG_TTL)
    && (forall t | t in leases :: leases[t].until <= now + LEASE)
    && (forall e | e in eventLeases :: eventLeases[e].until <= now + LEASE)
  }

  ghost predicate AlwaysInv(s: State) {
    && LifetimesInv(s.now, s.leases, s.flags, s.eventLeases)
    && AttemptsInv(s.calls, s.jobs)
    && ScheduleInv(s.jobs, s.schedule)
    && Consistent(s.db)
  }

  lemma CallKeepsAlways(s: State, r: nat, step: CallStep)
    requires AlwaysInv(s) && CallCan(s.now, s.leases, s.calls, s.jobs, s.db, r, step)
    ensures AlwaysInv(CallDoes(s, r, step))
  {
    if step.Enqueue? {
      ScheduleKeptByEnqueue(s.now, s.jobs, s.schedule, r, NewJob(s.calls[r].booking));
    }
  }

  lemma AttemptsKeptByWork(now: nat, calls: map<nat, Call>, jobs: map<nat, Job>, q: Schedule, db: Db, step: WorkerStep)
    requires AttemptsInv(calls, jobs) && WorkerCan(now, jobs, q, db, step)
    ensures AttemptsInv(calls, WorkerJobs(now, jobs, step))
  {
  }

  lemma ConsistentKeptByWork(now: nat, jobs: map<nat, Job>, q: Schedule, db: Db, step: WorkerStep)
    requires Consistent(db) && WorkerCan(now, jobs, q, db, step)
    ensures Consistent(WorkerDb(jobs, db, step))
  {
    if Commits(step) {
      SaleKeepsConsistent(db, jobs[step.r].booking, step.sale.value);
    }
  }

  lemma WorkerKeepsAlways(s: State, step: WorkerStep)
    requires AlwaysInv(s) && WorkerCan(s.now, s.jobs, s.schedule, s.db, step)
    ensures AlwaysInv(WorkerDoes(s, step))
  {
    ScheduleKeptByWork(s.now, s.jobs, s.schedule, s.db, step);
    AttemptsKeptByWork(s.now, s.calls, s.jobs, s.schedule, s.db, step);
    ConsistentKeptByWork(s.now, s.jobs, s.schedule, s.db, step);
  }

  lemma StandingKeepsAlways(s: State, q: nat, step: StandingStep)
    requires AlwaysInv(s) && StandingCan(s.now, s.eventLeases, s.standing, s.db, q, step)
    ensures AlwaysInv(StandingDoes(s, q, step))
  {
    if step.CommitSale? {
      var c := s.standing[q];
      SaleKeepsConsistent(s.db, Booking(c.userId, c.phase.ticketId, c.eventId), step.id);
    }
  }

  lemma StepKeepsAlways(s: State, a: Action)
    requires AlwaysInv(s) && Enabled(s, a)
    ensures AlwaysInv(Apply(s, a))
  {
    match a
    case Seating(r, step) => CallKeepsAlways(s, r, step);
    case Worker(step) => WorkerKeepsAlways(s, step);
    case Standing(q, step) => StandingKeepsAlways(s, q, step);
    case CreateEvent(e, kind, rows) => NewRowsKeepConsistent(s.db, e, kind, rows);
    case Tick(_) =>
  }

  lemma AlwaysAtStart(s: State)
    requires Init(s)
    ensures AlwaysInv(s)
  {
  }

  lemma StepKeepsAlwaysAt(states: seq<State>, acts: seq<Action>, k: nat)
    requires Run(states, acts) && k < |acts| && AlwaysInv(states[k])
    ensures AlwaysInv(states[k + 1])
  {
    assert StepAt(states, acts, k);
    StepKeepsAlways(states[k], acts[k]);
  }

  lemma {:induction false} AlwaysInRun(states: seq<State>, acts: seq<Action>, i: nat)
    requires Run(states, acts) && Init(states[0]) && i <= |acts|
    ensures AlwaysInv(states[i])
  {
    if i == 0 {
      AlwaysAtStart(states[0]);
    } else {
      var k := i - 1;
      AlwaysInRun(states, acts, k);
      StepKeepsAlwaysAt(states, acts, k);
    }
  }

  // ---- No ticket is lost ----

  /** Some run leads from `s` to `s'`. */
  ghost predicate Leads(s: State, s': State) {
    exists states, acts :: Run(states, acts) && states[0] == s && EndsIn(states, acts, s')
  }

  lemma LeadsStep(s: State, m: State, a: Action, s': State)
    requires Leads(s, m) && Enabled(m, a) && s' == Apply(m, a)
    ensures Leads(s, s')
  {
    var xs, bs :| Run(xs, bs) && xs[0] == s && EndsIn(xs, bs, m);
    RunGrows(xs, bs, a);
    assert Run(xs + [s'], bs + [a]) && (xs + [s'])[0] == s && EndsIn(xs + [s'], bs + [a], s');
  }

  /** A new caller's call for a ticket that is available, unflagged and unlocked, once it is granted. */
  function Claimed(s: State, r: nat, b: Booking): State {
    var flagged := Flagged(Checked(s.(calls := s.calls[r := Call(b, Arrived, 0, 0)]), r), r);
    WithPhase(flagged, r, Releasing(Granted)).(
      jobs := s.jobs[r := NewJob(b)],
      schedule := Push(s.schedule, r, s.now))
  }

  lemma FreshCallIsGranted(s: State, r: nat, b: Booking)
    requires r !in s.calls && r !in s.jobs && SeatingRequest(s.db, b.ticketId) && Available(s.db, b.ticketId)
    requires LeaseFree(s.leases, b.ticketId, s.now) && !FlagUp(s.now, s.flags, b.ticketId)
    ensures Leads(s, Claimed(s, r, b))
  {
    var s1 := s.(calls := s.calls[r := Call(b, Arrived, 0, 0)]);
    LeadsNowhere(s);
    LeadsStep(s, s, Seating(r, Arrive(b)), s1);
    LeadsToChecked(s, s1, r);
    LeadsToGranted(s, Checked(s1, r), r);
  }

  lemma LeadsNowhere(s: State)
    ensures Leads(s, s)
  {
    assert Run([s], []) && EndsIn([s], [], s) && [s][0] == s;
  }

  /** A call past its check goes on to its success answer. */
  lemma LeadsToGranted(s: State, m: State, r: nat)
    requires Leads(s, m) && At(m.calls, r, WritingFlag) && r !in m.jobs
    ensures Leads(s, WithPhase(Flagged(m, r), r, Releasing(Granted)).(
      jobs := m.jobs[r := NewJob(m.calls[r].booking)], schedule := Push(m.schedule, r, m.now)))
  {
    LeadsStep(s, m, Seating(r, WriteFlag), Flagged(m, r));
    LeadsStep(s, Flagged(m, r), Seating(r, Enqueue), CallDoes(Flagged(m, r), r, Enqueue));
  }

  lemma LeadsToChecked(s: State, m: State, r: nat)
    requires Leads(s, m) && At(m.calls, r, Arrived) && r !in m.jobs && Available(m.db, TicketOf(m.calls, r))
    requires LeaseFree(m.leases, TicketOf(m.calls, r), m.now) && !FlagUp(m.now, m.flags, TicketOf(m.calls, r))
    ensures Leads(s, Checked(m, r))
  {
    LeadsStep(s, m, Seating(r, Acquire), Locked(m, r));
    LeadsStep(s, Locked(m, r), Seating(r, ReadFlag), WithPhase(Locked(m, r), r, ReadingRow));
    LeadsStep(s, WithPhase(Locked(m, r), r, ReadingRow), Seating(r, ReadRow), Checked(m, r));
  }

  lemma GrantedSeat(s: State, r: nat, b: Booking)
    requires r !in s.calls && r !in s.jobs && !IsSold(s.db, b.ticketId)
    requires forall q | Unsettled(s.calls, s.jobs, q) :: TicketOf(s.calls, q) != b.ticketId
    ensures SeatIn(Claimed(s, r, b), b.ticketId) == Seat.Claimed(b.userId) && ToldGranted(Claimed(s, r, b), r)
  {
    var s' := Claimed(s, r, b);
    forall q | Claiming(s'.calls, s'.jobs, q, b.ticketId) ensures q == r {
      assert q != r ==> Unsettled(s.calls, s.jobs, q);
    }
    assert Claiming(s'.calls, s'.jobs, r, b.ticketId);
  }

  /** The step raises the flag of `t`, whether its caller learns of it or not. */
  predicate RaisesFlag(s: State, a: Action, t: Id) {
    a.Seating? && (a.step.WriteFlag? || a.step == Fault(true)) && a.r in s.calls && TicketOf(s.calls, a.r) == t
  }

  predicate RaisesFlagAt(states: seq<State>, acts: seq<Action>, t: Id, k: nat) {
    k < |states| && k < |acts| && RaisesFlag(states[k], acts[k], t)
  }

  lemma FlagFalls(s: State, a: Action, t: Id)
    requires Enabled(s, a) && !RaisesFlag(s, a, t)
    ensures t in Apply(s, a).flags ==> t in s.flags && Apply(s, a).flags[t] == s.flags[t]
  {
  }

  /** Unless somebody raises it again, a flag is gone a day later. */
  lemma {:induction false} FlagIsGone(states: seq<State>, acts: seq<Action>, t: Id, i: nat, j: nat)
    requires Run(states, acts) && Init(states[0]) && i <= j <= |acts|
    requires forall k: nat | i <= k < j :: !RaisesFlagAt(states, acts, t, k)
    ensures t in states[j].flags ==> states[j].flags[t] <= states[i].now + FLAG_TTL
    decreases j
  {
    if i == j {
      AlwaysInRun(states, acts, i);
    } else {
      var k := j - 1;
      FlagIsGone(states, acts, t, i, k);
      assert StepAt(states, acts, k) && !RaisesFlagAt(states, acts, t, k);
      FlagFalls(states[k], acts[k], t);
    }
  }

  /** The step deletes the flag of `t`. */
  predicate DropsFlag(s: State, a: Action, t: Id) {
    a.Seating? && a.step.Compensate? && a.r in s.calls && TicketOf(s.calls, a.r) == t
  }

  predicate TouchesFlagAt(states: seq<State>, acts: seq<Action>, t: Id, k: nat) {
    && k < |states| && k < |acts|
    && (RaisesFlag(states[k], acts[k], t) || DropsFlag(states[k], acts[k], t))
  }

  lemma FlagStays(s: State, a: Action, t: Id)
    requires Enabled(s, a) && !RaisesFlag(s, a, t) && !DropsFlag(s, a, t) && t in s.flags
    ensures t in Apply(s, a).flags && Apply(s, a).flags[t] == s.flags[t]
  {
  }

  lemma FlagRises(s: State, a: Action, t: Id)
    requires Enabled(s, a) && RaisesFlag(s, a, t)
    ensures t in Apply(s, a).flags && Apply(s, a).flags[t] == s.now + 86400000
  {
  }

  lemma {:induction false} FlagOverRun(states: seq<State>, acts: seq<Action>, t: Id, i: nat, j: nat)
    requires Run(states, acts) && i < j <= |acts| && RaisesFlagAt(states, acts, t, i)
    requires forall k: nat | i < k < j :: !TouchesFlagAt(states, acts, t, k)
    ensures t in states[j].flags && states[j].flags[t] == states[i].now + 86400000
    decreases j
  {
    var k := j - 1;
    assert StepAt(states, acts, k);
    if i == k {
      FlagRises(states[i], acts[i], t);
    } else {
      FlagOverRun(states, acts, t, i, k);
      assert !TouchesFlagAt(states, acts, t, k);
      FlagStays(states[k], acts[k], t);
    }
  }

  /** A flag, once raised and neither raised again nor deleted since, is up for exactly 24 hours. */
  lemma FlagIsExact(states: seq<State>, acts: seq<Action>, t: Id, i: nat, j: nat)
    requires Run(states, acts) && i < j <= |acts| && RaisesFlagAt(states, acts, t, i)
    requires forall k: nat | i < k < j :: !TouchesFlagAt(states, acts, t, k)
    ensures (t in states[j].flags && states[j].now < states[j].flags[t]) <==> states[j].now < states[i].now + 86400000
  {
    FlagOverRun(states, acts, t, i, j);
  }

  /** In any run whatever, timely or not, and however busy: a ticket whose flag nobody has raised for a day, and on
      which nobody has an open claim, is sold, or free. */
  lemma QuietDayFreesTicket(states: seq<State>, acts: seq<Action>, t: Id, i: nat, j: nat)
    requires Run(states, acts) && Init(states[0]) && i <= j <= |acts|
    requires states[j].now >= states[i].now + FLAG_TTL
    requires forall k: nat | i <= k < j :: !RaisesFlagAt(states, acts, t, k)
    requires forall q | Unsettled(states[j].calls, states[j].jobs, q) :: TicketOf(states[j].calls, q) != t
    ensures SeatIn(states[j], t)
         == if IsSold(states[j].db, t) then Sold(OwnerOf(states[j].db, t)) else Seat.Free
  {
    FlagIsGone(states, acts, t, i, j);
    AlwaysInRun(states, acts, j);
    UnclaimedSeat(states[j].now, states[j].flags, states[j].calls, states[j].jobs, states[j].db, t);
  }

  /** So no ticket is lost: after such a day it is sold, or it is free and, once its lock is free, the next caller
      gets it. */
  lemma NoTicketIsLost(states: seq<State>, acts: seq<Action>, i: nat, j: nat, r: nat, b: Booking)
    requires Run(states, acts) && Init(states[0]) && i <= j <= |acts|
    requires states[j].now >= states[i].now + FLAG_TTL
    requires forall k: nat | i <= k < j :: !RaisesFlagAt(states, acts, b.ticketId, k)
    requires forall q | Unsettled(states[j].calls, states[j].jobs, q) :: TicketOf(states[j].calls, q) != b.ticketId
    requires b.ticketId in states[j].db.tickets && SeatingRequest(states[j].db, b.ticketId) && r !in states[j].calls
    ensures SeatIn(states[j], b.ticketId).Sold? || SeatIn(states[j], b.ticketId).Free?
    ensures SeatIn(states[j], b.ticketId).Free? && LeaseFree(states[j].leases, b.ticketId, states[j].now) ==>
      exists s' :: Leads(states[j], s') && ToldGranted(s', r) && SeatIn(s', b.ticketId) == Seat.Claimed(b.userId)
  {
    var s := states[j];
    QuietDayFreesTicket(states, acts, b.ticketId, i, j);
    AlwaysInRun(states, acts, j);
    FlagIsGone(states, acts, b.ticketId, i, j);
    if !IsSold(s.db, b.ticketId) && LeaseFree(s.leases, b.ticketId, s.now) {
      FreshCallIsGranted(s, r, b);
      GrantedSeat(s, r, b);
    }
  }
}
