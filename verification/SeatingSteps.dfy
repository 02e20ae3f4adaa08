/** Every step of a createSeating call keeps the invariant of the seating route. */
module SeatingSteps {
  import opened Durations
  import opened Tables
  import opened SaleProtocol
  import opened SaleInvariant

  lemma LocksKept(now: nat, leases: map<Id, Lease>, flags: map<Id, nat>, calls: map<nat, Call>, jobs: map<nat, Job>,
                  db: Db, r: nat, step: CallStep)
    requires LocksInv(now, leases, calls) && CallCan(now, leases, calls, jobs, db, r, step)
    ensures LocksInv(now, LeasesAfter(now, leases, calls, r, step), calls[r := CallAfter(now, flags, db, calls, r, step)])
  {
  }

  /** Only a flag write makes a claim; no step gives an existing call a new stake. */
  lemma StakesAfter(now: nat, leases: map<Id, Lease>, flags: map<Id, nat>, calls: map<nat, Call>, jobs: map<nat, Job>,
                    db: Db, r: nat, step: CallStep, q: nat)
    requires JobsInv(now, calls, jobs) && CallCan(now, leases, calls, jobs, db, r, step)
    ensures var calls' := calls[r := CallAfter(now, flags, db, calls, r, step)];
      var jobs' := JobsAfter(calls, jobs, r, step);
      && (q in calls ==> TicketOf(calls', q) == TicketOf(calls, q))
      && (Staked(calls', jobs', q) ==> Staked(calls, jobs, q) || (q == r && step.WriteFlag?))
      && (Unsettled(calls', jobs', q) ==> Unsettled(calls, jobs, q) || (q == r && step.WriteFlag?))
      && (q in calls && !(q == r && step.WriteFlag?) ==> calls'[q].flaggedAt == calls[q].flaggedAt)
  {
  }

  lemma OneStakeKept(now: nat, leases: map<Id, Lease>, flags: map<Id, nat>, calls: map<nat, Call>, jobs: map<nat, Job>,
                     db: Db, r: nat, step: CallStep)
    requires SeatingInv(now, leases, flags, calls, jobs, db) && CallCan(now, leases, calls, jobs, db, r, step)
    requires step.WriteFlag? ==> Live(now, calls[r])
    ensures OneStakePerTicket(calls[r := CallAfter(now, flags, db, calls, r, step)], JobsAfter(calls, jobs, r, step))
  {
    var calls' := calls[r := CallAfter(now, flags, db, calls, r, step)];
    var jobs' := JobsAfter(calls, jobs, r, step);
    forall p, q | Staked(calls', jobs', p) && Staked(calls', jobs', q) && TicketOf(calls', p) == TicketOf(calls', q)
      ensures p == q
    {
      StakesAfter(now, leases, flags, calls, jobs, db, r, step, p);
      StakesAfter(now, leases, flags, calls, jobs, db, r, step, q);
      assert Staked(calls, jobs, p) && !Unsettled(calls, jobs, p) ==> jobs[p].committed;
      assert Staked(calls, jobs, q) && !Unsettled(calls, jobs, q) ==> jobs[q].committed;
    }
  }

  lemma ClaimsKept(now: nat, leases: map<Id, Lease>, flags: map<Id, nat>, calls: map<nat, Call>, jobs: map<nat, Job>,
                   db: Db, r: nat, step: CallStep)
    requires SeatingInv(now, leases, flags, calls, jobs, db) && CallCan(now, leases, calls, jobs, db, r, step)
    requires step.WriteFlag? || step == Fault(true) ==> Live(now, calls[r])
    ensures ClaimsInv(now, FlagsAfter(now, flags, calls, r, step), calls[r := CallAfter(now, flags, db, calls, r, step)],
                      JobsAfter(calls, jobs, r, step), db)
  {
    var calls' := calls[r := CallAfter(now, flags, db, calls, r, step)];
    var jobs' := JobsAfter(calls, jobs, r, step);
    forall q | Unsettled(calls', jobs', q)
      ensures TicketOf(calls', q) == TicketOf(calls, q)
      ensures (Unsettled(calls, jobs, q) && calls'[q].flaggedAt == calls[q].flaggedAt) || (q == r && step.WriteFlag?)
    {
      StakesAfter(now, leases, flags, calls, jobs, db, r, step, q);
    }
    if step.Compensate? {
      assert Staked(calls, jobs, r);
      forall q | Unsettled(calls, jobs, q) ensures Staked(calls, jobs, q) {}
    }
  }

  /** What a live check of call `p` says; `ChecksInv` says it of every call. */
  ghost predicate CheckHolds(now: nat, flags: map<Id, nat>, calls: map<nat, Call>, jobs: map<nat, Job>, db: Db, p: nat) {
    p in calls && (calls[p].phase.ReadingRow? || calls[p].phase.WritingFlag?) && Live(now, calls[p]) ==>
      && !FlagUp(now, flags, TicketOf(calls, p))
      && (forall q | Unsettled(calls, jobs, q) :: TicketOf(calls, q) != TicketOf(calls, p))
      && (calls[p].phase.WritingFlag? ==> Available(db, TicketOf(calls, p)))
  }

  /** The check of the call that takes the step, after it. */
  lemma OwnCheckKept(now: nat, leases: map<Id, Lease>, flags: map<Id, nat>, calls: map<nat, Call>, jobs: map<nat, Job>,
                     db: Db, r: nat, step: CallStep)
    requires SeatingInv(now, leases, flags, calls, jobs, db) && CallCan(now, leases, calls, jobs, db, r, step)
    requires forall q | Unsettled(calls, jobs, q) :: now < calls[q].flaggedAt + FLAG_TTL
    ensures CheckHolds(now, FlagsAfter(now, flags, calls, r, step), calls[r := CallAfter(now, flags, db, calls, r, step)],
                       JobsAfter(calls, jobs, r, step), db, r)
  {
  }

  /** Any other call's check: one on the same ticket means that the lease is not `r`'s, so `r` does not write. */
  lemma OtherCheckKept(now: nat, leases: map<Id, Lease>, flags: map<Id, nat>, calls: map<nat, Call>, jobs: map<nat, Job>,
                       db: Db, r: nat, step: CallStep, p: nat)
    requires SeatingInv(now, leases, flags, calls, jobs, db) && CallCan(now, leases, calls, jobs, db, r, step)
    requires step.WriteFlag? || step == Fault(true) ==> Live(now, calls[r])
    requires p != r
    ensures CheckHolds(now, FlagsAfter(now, flags, calls, r, step), calls[r := CallAfter(now, flags, db, calls, r, step)],
                       JobsAfter(calls, jobs, r, step), db, p)
  {
    var calls' := calls[r := CallAfter(now, flags, db, calls, r, step)];
    var jobs' := JobsAfter(calls, jobs, r, step);
    forall q | Unsettled(calls', jobs', q)
      ensures TicketOf(calls', q) == TicketOf(calls, q)
      ensures Unsettled(calls, jobs, q) || (q == r && step.WriteFlag?)
    {
      StakesAfter(now, leases, flags, calls, jobs, db, r, step, q);
    }
  }

  lemma ChecksKept(now: nat, leases: map<Id, Lease>, flags: map<Id, nat>, calls: map<nat, Call>, jobs: map<nat, Job>,
                   db: Db, r: nat, step: CallStep)
    requires SeatingInv(now, leases, flags, calls, jobs, db) && CallCan(now, leases, calls, jobs, db, r, step)
    requires step.WriteFlag? || step == Fault(true) ==> Live(now, calls[r])
    requires forall q | Unsettled(calls, jobs, q) :: now < calls[q].flaggedAt + FLAG_TTL
    ensures ChecksInv(now, FlagsAfter(now, flags, calls, r, step), calls[r := CallAfter(now, flags, db, calls, r, step)],
                      JobsAfter(calls, jobs, r, step), db)
  {
    var flags' := FlagsAfter(now, flags, calls, r, step);
    var calls' := calls[r := CallAfter(now, flags, db, calls, r, step)];
    var jobs' := JobsAfter(calls, jobs, r, step);
    forall p: nat ensures CheckHolds(now, flags', calls', jobs', db, p) {
      if p == r {
        OwnCheckKept(now, leases, flags, calls, jobs, db, r, step);
      } else {
        OtherCheckKept(now, leases, flags, calls, jobs, db, r, step, p);
      }
    }
    ChecksFromEach(now, flags', calls', jobs', db);
  }

  lemma ChecksFromEach(now: nat, flags: map<Id, nat>, calls: map<nat, Call>, jobs: map<nat, Job>, db: Db)
    requires forall p: nat :: CheckHolds(now, flags, calls, jobs, db, p)
    ensures ChecksInv(now, flags, calls, jobs, db)
  {
    forall r | r in calls ensures CheckHolds(now, flags, calls, jobs, db, r) {}
  }

  lemma JobsKept(now: nat, leases: map<Id, Lease>, flags: map<Id, nat>, calls: map<nat, Call>, jobs: map<nat, Job>,
                 db: Db, r: nat, step: CallStep)
    requires JobsInv(now, calls, jobs) && ClaimsInv(now, flags, calls, jobs, db)
    requires CallCan(now, leases, calls, jobs, db, r, step)
    ensures JobsInv(now, calls[r := CallAfter(now, flags, db, calls, r, step)], JobsAfter(calls, jobs, r, step))
  {
    assert step.Enqueue? ==> Unsettled(calls, jobs, r);
  }

  lemma SeatingKept(now: nat, leases: map<Id, Lease>, flags: map<Id, nat>, calls: map<nat, Call>, jobs: map<nat, Job>,
                    db: Db, r: nat, step: CallStep)
    requires SeatingInv(now, leases, flags, calls, jobs, db) && CallCan(now, leases, calls, jobs, db, r, step)
    requires step.WriteFlag? || step == Fault(true) ==> Live(now, calls[r])
    requires forall q | Unsettled(calls, jobs, q) :: now < calls[q].flaggedAt + FLAG_TTL
    ensures SeatingInv(now, LeasesAfter(now, leases, calls, r, step), FlagsAfter(now, flags, calls, r, step),
                       calls[r := CallAfter(now, flags, db, calls, r, step)], JobsAfter(calls, jobs, r, step), db)
  {
    LocksKept(now, leases, flags, calls, jobs, db, r, step);
    OneStakeKept(now, leases, flags, calls, jobs, db, r, step);
    ClaimsKept(now, leases, flags, calls, jobs, db, r, step);
    ChecksKept(now, leases, flags, calls, jobs, db, r, step);
    JobsKept(now, leases, flags, calls, jobs, db, r, step);
  }
}
