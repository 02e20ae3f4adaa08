/** Retrying ends and is clean: every attempt that ends uses up one of the tries some enqueue
    granted, and the tables grow by commits alone. */
module Retry {
  import opened Durations
  import opened Tables
  import opened SaleProtocol
  import opened SaleInvariant
  import opened SaleTheorems
  import opened Recovery

  /** What a job may still cost: its attempts, and the stalls it is allowed. */
  function Weight(j: Job): nat {
    if j.status.Queued? then j.attemptsLeft + j.stallsLeft else 0
  }

  ghost function PendingOf(jobs: map<nat, Job>, keys: set<nat>): nat
    requires keys <= jobs.Keys
  {
    if keys == {} then 0
    else
      var r :| r in keys;
      Weight(jobs[r]) + PendingOf(jobs, keys - {r})
  }

  /** The attempts all queued jobs have left. */
  ghost function Pending(jobs: map<nat, Job>): nat {
    PendingOf(jobs, jobs.Keys)
  }

  lemma {:induction false} PendingTake(jobs: map<nat, Job>, keys: set<nat>, r: nat)
    requires r in keys && keys <= jobs.Keys
    ensures PendingOf(jobs, keys) == Weight(jobs[r]) + PendingOf(jobs, keys - {r})
  {
    var q :| q in keys && PendingOf(jobs, keys) == Weight(jobs[q]) + PendingOf(jobs, keys - {q});
    if q != r {
      PendingTake(jobs, keys - {q}, r);
      PendingTake(jobs, keys - {r}, q);
      assert keys - {q} - {r} == keys - {r} - {q};
    }
  }

  lemma {:induction false} PendingSame(jobs: map<nat, Job>, jobs': map<nat, Job>, keys: set<nat>)
    requires keys <= jobs.Keys && keys <= jobs'.Keys
    requires forall r | r in keys :: jobs[r] == jobs'[r]
    ensures PendingOf(jobs, keys) == PendingOf(jobs', keys)
  {
    if keys != {} {
      var r :| r in keys;
      PendingTake(jobs, keys, r);
      PendingTake(jobs', keys, r);
      PendingSame(jobs, jobs', keys - {r});
    }
  }

  lemma PendingAfter(jobs: map<nat, Job>, r: nat, j: Job)
    ensures Pending(jobs[r := j]) + (if r in jobs then Weight(jobs[r]) else 0) == Pending(jobs) + Weight(j)
  {
    var jobs' := jobs[r := j];
    PendingTake(jobs', jobs'.Keys, r);
    assert jobs'.Keys - {r} == jobs.Keys - {r};
    PendingSame(jobs, jobs', jobs.Keys - {r});
    if r in jobs {
      PendingTake(jobs, jobs.Keys, r);
    } else {
      assert jobs.Keys - {r} == jobs.Keys;
    }
  }

  /** An attempt ends, however it does. */
  predicate Finishes(a: Action) {
    a.Worker? && a.work.EndAttempt?
  }

  predicate Enqueues(a: Action) {
    a.Seating? && a.step.Enqueue?
  }

  /** The measure: an attempt that ends lowers it, only an enqueue raises it, by the tries it grants. */
  lemma StepLowersPending(s: State, a: Action)
    requires AlwaysInv(s) && Enabled(s, a)
    ensures Finishes(a) ==> Pending(Apply(s, a).jobs) < Pending(s.jobs)
    ensures Enqueues(a) ==> Pending(Apply(s, a).jobs) == Pending(s.jobs) + ATTEMPTS + MAX_STALLS
    ensures !Finishes(a) && !Enqueues(a) ==> Pending(Apply(s, a).jobs) == Pending(s.jobs)
  {
    match a
    case Seating(r, step) =>
      if step.Enqueue? {
        PendingAfter(s.jobs, r, NewJob(s.calls[r].booking));
      }
    case Worker(step) =>
      if step.EndAttempt? {
        assert Scheduled(s.schedule, step.r);
        PendingAfter(s.jobs, step.r, JobAfter(s.now, s.jobs[step.r], step.sale.Some?, step.ending));
      }
    case _ =>
  }

  function Count(p: Action -> bool, acts: seq<Action>): nat {
    if acts == [] then 0 else Count(p, acts[..|acts| - 1]) + (if p(acts[|acts| - 1]) then 1 else 0)
  }

  lemma StepLowersPendingAt(states: seq<State>, acts: seq<Action>, k: nat)
    requires Run(states, acts) && Init(states[0]) && k < |acts|
    ensures Pending(states[k + 1].jobs) + (if Finishes(acts[k]) then 1 else 0)
         <= Pending(states[k].jobs) + (if Enqueues(acts[k]) then ATTEMPTS + MAX_STALLS else 0)
  {
    AlwaysInRun(states, acts, k);
    assert StepAt(states, acts, k);
    StepLowersPending(states[k], acts[k]);
  }

  /** Over every run, attempts ended plus tries left are at most four per enqueued job, three and one for a stall. */
  lemma {:induction false} RetriesAreBounded(states: seq<State>, acts: seq<Action>, k: nat)
    requires Run(states, acts) && Init(states[0]) && k <= |acts|
    ensures Count(Finishes, acts[..k]) + Pending(states[k].jobs) <= (ATTEMPTS + MAX_STALLS) * Count(Enqueues, acts[..k])
  {
    if k == 0 {
      assert states[0].jobs == map[];
    } else {
      RetriesAreBounded(states, acts, k - 1);
      StepLowersPendingAt(states, acts, k - 1);
      assert acts[..k][..k - 1] == acts[..k - 1];
    }
  }

  /** The step commits a sale, on either route. */
  predicate CommitsSale(a: Action) {
    || (a.Worker? && Commits(a.work))
    || (a.Standing? && a.move.CommitSale?)
  }

  lemma CommitAddsReservation(s: State, a: Action)
    requires Enabled(s, a)
    ensures |Apply(s, a).db.reservations| == |s.db.reservations| + (if CommitsSale(a) then 1 else 0)
  {
    match a
    case Worker(step) =>
      if Commits(step) {
        SaleCounts(s.db, s.jobs[step.r].booking, step.sale.value);
      }
    case Standing(q, step) =>
      if step.CommitSale? {
        var c := s.standing[q];
        SaleCounts(s.db, Booking(c.userId, c.phase.ticketId, c.eventId), step.id);
      }
    case _ =>
  }

  /** Over every run the reservations grow by exactly the number of commits: no attempt that failed, stalled or
      was retried has left one behind, and no commit has overwritten one. */
  lemma {:induction false} ReservationsCountCommits(states: seq<State>, acts: seq<Action>, k: nat)
    requires Run(states, acts) && k <= |acts|
    ensures |states[k].db.reservations| == |states[0].db.reservations| + Count(CommitsSale, acts[..k])
  {
    if k > 0 {
      ReservationsCountCommits(states, acts, k - 1);
      assert StepAt(states, acts, k - 1);
      CommitAddsReservation(states[k - 1], acts[k - 1]);
      assert acts[..k][..k - 1] == acts[..k - 1];
    }
  }

  /** In a safe run every commit that is not a redelivery sells one more ticket, and nothing else sells any. */
  lemma SoldTicketsCountFirstCommits(states: seq<State>, acts: seq<Action>, k: nat)
    requires SafeRun(states, acts) && k <= |acts|
    ensures |SoldTickets(states[k].db)| + Redeliveries(states, acts, k)
         == |SoldTickets(states[0].db)| + Count(CommitsSale, acts[..k])
  {
    ReservationsCountCommits(states, acts, k);
    Conservation(states, acts, 0);
    Conservation(states, acts, k);
  }
}
