/** A rejected enqueue is undone exactly: when the compensating delete has run, the flag, the jobs
    and the row of the ticket are what they were when the call read the flag, whatever everybody
    else did in between. */
module Compensation {
  import opened Durations
  import opened Tables
  import opened SaleProtocol
  import opened SaleInvariant
  import opened SaleRuns
  import opened SaleTheorems

  function JobsOn(jobs: map<nat, Job>, t: Id): map<nat, Job> {
    map r | r in jobs && jobs[r].booking.ticketId == t :: jobs[r]
  }

  /** How far a call is between its flag read and the end of its compensation. */
  function Stage(p: Phase): nat {
    match p
    case ReadingRow => 1
    case WritingFlag => 2
    case Enqueueing => 3
    case Compensating => 4
    case Arrived | ReadingFlag => 0
    case _ => 5
  }

  /** The call has read its flag and still has its claim, or a live lease to make it. */
  predicate Guards(s: State, r: nat) {
    && r in s.calls
    && 1 <= Stage(s.calls[r].phase) <= 4
    && (Stage(s.calls[r].phase) <= 2 ==> Live(s.now, s.calls[r]))
  }

  /** Nobody else has an open claim on a guarded ticket. */
  lemma GuardExcludes(s: State, r: nat, q: nat)
    requires SeatingInv(s.now, s.leases, s.flags, s.calls, s.jobs, s.db)
    requires Guards(s, r) && Unsettled(s.calls, s.jobs, q) && q != r
    ensures TicketOf(s.calls, q) != TicketOf(s.calls, r)
  {
    assert Staked(s.calls, s.jobs, q);
    assert Stage(s.calls[r].phase) > 2 ==> Staked(s.calls, s.jobs, r);
  }

  lemma GuardedFromCalls(s: State, r: nat, q: nat, step: CallStep)
    requires SeatingInv(s.now, s.leases, s.flags, s.calls, s.jobs, s.db)
    requires CallCan(s.now, s.leases, s.calls, s.jobs, s.db, q, step) && Guards(s, r) && Guards(CallDoes(s, q, step), r)
    ensures JobsOn(CallDoes(s, q, step).jobs, TicketOf(s.calls, r)) == JobsOn(s.jobs, TicketOf(s.calls, r))
  {
    if step.Enqueue? {
      GuardExcludes(s, r, q);
      OtherJobAdded(s.jobs, q, NewJob(s.calls[q].booking), TicketOf(s.calls, r));
    }
  }

  lemma OtherJobAdded(jobs: map<nat, Job>, q: nat, j: Job, t: Id)
    requires q !in jobs && j.booking.ticketId != t
    ensures JobsOn(jobs[q := j], t) == JobsOn(jobs, t)
  {
  }

  lemma WorkerAvoidsGuarded(s: State, r: nat, j: nat)
    requires SeatingInv(s.now, s.leases, s.flags, s.calls, s.jobs, s.db) && ScheduleInv(s.jobs, s.schedule)
    requires Guards(s, r) && Available(s.db, TicketOf(s.calls, r)) && j in s.schedule.active
    ensures j in s.jobs && s.jobs[j].booking.ticketId != TicketOf(s.calls, r)
  {
    assert Scheduled(s.schedule, j);
    if !s.jobs[j].committed {
      GuardExcludes(s, r, j);
    }
  }

  lemma GuardedFromWorker(s: State, r: nat, step: WorkerStep)
    requires SeatingInv(s.now, s.leases, s.flags, s.calls, s.jobs, s.db) && ScheduleInv(s.jobs, s.schedule)
    requires WorkerCan(s.now, s.jobs, s.schedule, s.db, step) && Guards(s, r) && Available(s.db, TicketOf(s.calls, r))
    ensures JobsOn(WorkerDoes(s, step).jobs, TicketOf(s.calls, r)) == JobsOn(s.jobs, TicketOf(s.calls, r))
    ensures TicketIn(WorkerDoes(s, step).db, TicketOf(s.calls, r)) == TicketIn(s.db, TicketOf(s.calls, r))
  {
    if step.EndAttempt? {
      WorkerAvoidsGuarded(s, r, step.r);
      WorkLeavesOtherTickets(s.now, s.jobs, s.schedule, s.db, step, TicketOf(s.calls, r));
    }
  }

  lemma WorkLeavesOtherTickets(now: nat, jobs: map<nat, Job>, q: Schedule, db: Db, step: WorkerStep, t: Id)
    requires WorkerCan(now, jobs, q, db, step) && step.EndAttempt? && jobs[step.r].booking.ticketId != t
    ensures JobsOn(WorkerJobs(now, jobs, step), t) == JobsOn(jobs, t)
    ensures TicketIn(WorkerDb(jobs, db, step), t) == TicketIn(db, t)
  {
  }

  lemma GuardedFromOthers(s: State, a: Action, t: Id)
    requires Enabled(s, a) && !a.Seating? && !a.Worker? && Available(s.db, t) && Available(Apply(s, a).db, t)
    ensures JobsOn(Apply(s, a).jobs, t) == JobsOn(s.jobs, t) && TicketIn(Apply(s, a).db, t) == TicketIn(s.db, t)
  {
  }

  /** No step of anybody touches the row or the jobs of a guarded ticket that is still available after it. */
  lemma GuardedStep(s: State, a: Action, r: nat)
    requires Inv(s) && TimelyStep(s, a, LEASE, LEASE, FLAG_TTL)
    requires Guards(s, r) && Guards(Apply(s, a), r)
    requires Available(s.db, TicketOf(s.calls, r)) && Available(Apply(s, a).db, TicketOf(s.calls, r))
    ensures JobsOn(Apply(s, a).jobs, TicketOf(s.calls, r)) == JobsOn(s.jobs, TicketOf(s.calls, r))
    ensures TicketIn(Apply(s, a).db, TicketOf(s.calls, r)) == TicketIn(s.db, TicketOf(s.calls, r))
  {
    match a
    case Seating(q, step) => GuardedFromCalls(s, r, q, step);
    case Worker(step) => GuardedFromWorker(s, r, step);
    case _ => GuardedFromOthers(s, a, TicketOf(s.calls, r));
  }

  lemma StageStep(s: State, a: Action, r: nat)
    requires Enabled(s, a) && WritesWithin(s, a, LEASE, LEASE) && r in s.calls && Stage(s.calls[r].phase) >= 1
    ensures r in Apply(s, a).calls && TicketOf(Apply(s, a).calls, r) == TicketOf(s.calls, r)
    ensures Stage(s.calls[r].phase) <= Stage(Apply(s, a).calls[r].phase)
    ensures Guards(Apply(s, a), r) ==> Guards(s, r)
  {
  }

  /** What an observer of one ticket sees of its row and its jobs. */
  function ViewOf(s: State, t: Id): (Option<TicketRow>, map<nat, Job>) {
    (TicketIn(s.db, t), JobsOn(s.jobs, t))
  }

  /** One step, read backwards from a state in which the ticket is guarded and available. */
  lemma GuardedAt(states: seq<State>, acts: seq<Action>, r: nat, k: nat)
    requires SafeRun(states, acts) && k < |acts|
    requires r in states[k].calls && Stage(states[k].calls[r].phase) >= 1
    requires Guards(states[k + 1], r) && Available(states[k + 1].db, TicketOf(states[k + 1].calls, r))
    ensures Guards(states[k], r) && TicketOf(states[k + 1].calls, r) == TicketOf(states[k].calls, r)
    ensures Available(states[k].db, TicketOf(states[k].calls, r))
    ensures ViewOf(states[k], TicketOf(states[k].calls, r)) == ViewOf(states[k + 1], TicketOf(states[k].calls, r))
  {
    RunInv(states, acts, k);
    var s, a := states[k], acts[k];
    StageStep(s, a, r);
    assert Available(s.db, TicketOf(s.calls, r)) by {
      RowWasAvailable(s, a, r);
    }
    GuardedStep(s, a, r);
  }

  /** A ticket that a call names and that is available after a step was available before it. */
  lemma RowWasAvailable(s: State, a: Action, r: nat)
    requires Inv(s) && TimelyStep(s, a, LEASE, LEASE, FLAG_TTL) && r in s.calls
    requires Available(Apply(s, a).db, TicketOf(s.calls, r))
    ensures Available(s.db, TicketOf(s.calls, r))
  {
    var t := TicketOf(s.calls, r);
    TicketWasThere(s, a, r);
    SoldOrAvailable(s.db, t);
    if IsSold(s.db, t) {
      SoldRowStays(s, a, t);
    }
  }

  lemma TicketWasThere(s: State, a: Action, r: nat)
    requires Enabled(s, a) && r in s.calls && TicketOf(s.calls, r) in Apply(s, a).db.tickets
    ensures TicketOf(s.calls, r) in s.db.tickets
  {
  }

  lemma SoldOrAvailable(db: Db, t: Id)
    requires Consistent(db) && t in db.tickets
    ensures IsSold(db, t) <==> !Available(db, t)
  {
  }

  lemma {:induction false} GuardedSince(states: seq<State>, acts: seq<Action>, r: nat, k: nat, j: nat)
    requires SafeRun(states, acts) && k <= j <= |acts|
    requires r in states[k].calls && Stage(states[k].calls[r].phase) >= 1
    requires r in states[j].calls && states[j].calls[r].phase.Compensating?
    ensures Guards(states[k], r) && TicketOf(states[k].calls, r) == TicketOf(states[j].calls, r)
    ensures ViewOf(states[k], TicketOf(states[j].calls, r)) == ViewOf(states[j], TicketOf(states[j].calls, r))
    ensures Available(states[k].db, TicketOf(states[j].calls, r))
    decreases j - k
  {
    if k == j {
      RunInv(states, acts, j);
    } else {
      StageAt(states, acts, r, k);
      GuardedSince(states, acts, r, k + 1, j);
      GuardedAt(states, acts, r, k);
    }
  }

  lemma StageAt(states: seq<State>, acts: seq<Action>, r: nat, k: nat)
    requires SafeRun(states, acts) && k < |acts| && r in states[k].calls && Stage(states[k].calls[r].phase) >= 1
    ensures r in states[k + 1].calls && Stage(states[k + 1].calls[r].phase) >= 1
  {
    RunInv(states, acts, k);
    StageStep(states[k], acts[k], r);
  }

  lemma ReadFlagStarts(states: seq<State>, acts: seq<Action>, r: nat, i: nat)
    requires SafeRun(states, acts) && i < |acts| && acts[i] == Seating(r, ReadFlag)
    ensures r in states[i].calls && r in states[i + 1].calls
    ensures TicketOf(states[i + 1].calls, r) == TicketOf(states[i].calls, r)
    ensures ViewOf(states[i + 1], TicketOf(states[i].calls, r)) == ViewOf(states[i], TicketOf(states[i].calls, r))
    ensures Stage(states[i + 1].calls[r].phase)
         == if FlagUp(states[i].now, states[i].flags, TicketOf(states[i].calls, r)) then 5 else 1
  {
    RunInv(states, acts, i);
  }

  lemma CompensateEnds(states: seq<State>, acts: seq<Action>, r: nat, j: nat)
    requires SafeRun(states, acts) && j < |acts| && acts[j] == Seating(r, Compensate)
    ensures At(states[j].calls, r, Compensating)
    ensures ViewOf(states[j + 1], TicketOf(states[j].calls, r)) == ViewOf(states[j], TicketOf(states[j].calls, r))
    ensures TicketOf(states[j].calls, r) !in states[j + 1].flags
  {
    RunInv(states, acts, j);
  }

  /** However late the compensating delete runs, even with the lease long gone, the flag it removes is the
      caller's own and nobody else has a stake in the ticket. */
  lemma CompensationDeletesOwnFlag(states: seq<State>, acts: seq<Action>, r: nat, j: nat)
    requires SafeRun(states, acts) && j < |acts| && acts[j] == Seating(r, Compensate)
    ensures At(states[j].calls, r, Compensating)
    ensures var s := states[j];
      var t := TicketOf(s.calls, r);
      && t in s.flags && s.flags[t] == s.calls[r].flaggedAt + FLAG_TTL
      && (forall q | q != r && Staked(s.calls, s.jobs, q) :: TicketOf(s.calls, q) != t)
  {
    CompensateEnds(states, acts, r, j);
    RunInv(states, acts, j);
    assert Unsettled(states[j].calls, states[j].jobs, r) && Staked(states[j].calls, states[j].jobs, r);
  }

  /** From the flag read to the state in which the compensating delete runs, nothing has changed. */
  lemma NothingChangedSinceRead(states: seq<State>, acts: seq<Action>, r: nat, i: nat, j: nat)
    requires SafeRun(states, acts) && i < j < |acts|
    requires acts[i] == Seating(r, ReadFlag) && At(states[j].calls, r, Compensating)
    ensures r in states[i].calls && TicketOf(states[j].calls, r) == TicketOf(states[i].calls, r)
    ensures var t := TicketOf(states[i].calls, r);
      ViewOf(states[j], t) == ViewOf(states[i], t) && !FlagUp(states[i].now, states[i].flags, t)
  {
    var k := i + 1;
    ReadFlagStarts(states, acts, r, i);
    GuardedSince(states, acts, r, k, j);
  }

  /** From the flag read at step `i` to the compensating delete at step `j`: the row and the jobs of the
      ticket are what they were, and the flag, which was down, is gone. */
  lemma CompensationUndoes(states: seq<State>, acts: seq<Action>, r: nat, i: nat, j: nat)
    requires SafeRun(states, acts) && i < j < |acts|
    requires acts[i] == Seating(r, ReadFlag) && acts[j] == Seating(r, Compensate)
    ensures r in states[i].calls
    ensures var t := TicketOf(states[i].calls, r);
      && ViewOf(states[j + 1], t) == ViewOf(states[i], t)
      && !FlagUp(states[i].now, states[i].flags, t) && t !in states[j + 1].flags
  {
    CompensateEnds(states, acts, r, j);
    NothingChangedSinceRead(states, acts, r, i, j);
  }
}
