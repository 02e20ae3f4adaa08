/** What holds over whole timely runs: every seat is sold once and for good, every answer is kept,
    and the tables balance. */
module SaleTheorems {
  import opened Durations
  import opened Tables
  import opened SaleProtocol
  import opened SaleInvariant
  import opened WorkerSteps
  import opened SaleRuns
  import opened SeatMachine

  /** A timely run within the windows the constants of the service allow. */
  ghost predicate SafeRun(states: seq<State>, acts: seq<Action>) {
    TimelyRun(states, acts, LEASE, LEASE, FLAG_TTL)
  }

  lemma RunInv(states: seq<State>, acts: seq<Action>, i: nat)
    requires SafeRun(states, acts) && i <= |acts|
    ensures Inv(states[i]) && ClaimsYoungerThan(states[i], FLAG_TTL)
    ensures i < |acts| ==> TimelyStep(states[i], acts[i], LEASE, LEASE, FLAG_TTL) && states[i + 1] == Apply(states[i], acts[i])
  {
    RunKeepsInv(states, acts, LEASE, LEASE, FLAG_TTL, i);
    if i < |acts| {
      assert StepAt(states, acts, i) && TimelyAt(states, acts, LEASE, LEASE, FLAG_TTL, i);
    } else if i > 0 {
      assert StepAt(states, acts, i - 1) && TimelyAt(states, acts, LEASE, LEASE, FLAG_TTL, i - 1);
    }
  }

  // ---- One buyer per seat ----

  lemma TicketsStay(s: State, a: Action, t: Id)
    requires Enabled(s, a) && t in s.db.tickets
    ensures t in Apply(s, a).db.tickets
  {
  }

  /** The history of every seat is a run of the seat machine, with stutters. */
  lemma RunRefines(states: seq<State>, acts: seq<Action>, t: Id, i: nat)
    requires SafeRun(states, acts) && i < |acts| && t in states[i].db.tickets
    ensures t in states[i + 1].db.tickets
    ensures StutterOrStep(SeatIn(states[i], t), SeatIn(states[i + 1], t))
  {
    RunInv(states, acts, i);
    StepRefines(states[i], acts[i], t);
    TicketsStay(states[i], acts[i], t);
  }

  lemma SoldSeatStays(states: seq<State>, acts: seq<Action>, t: Id, k: nat)
    requires SafeRun(states, acts) && k < |acts| && t in states[k].db.tickets && SeatIn(states[k], t).Sold?
    ensures t in states[k + 1].db.tickets && SeatIn(states[k + 1], t) == SeatIn(states[k], t)
  {
    RunRefines(states, acts, t, k);
  }

  /** A sold seat stays sold to the same user, whatever is redelivered or expires. */
  lemma {:induction false} SoldIsFinal(states: seq<State>, acts: seq<Action>, t: Id, i: nat, j: nat)
    requires SafeRun(states, acts) && i <= j <= |acts| && t in states[i].db.tickets
    requires SeatIn(states[i], t).Sold?
    ensures t in states[j].db.tickets && SeatIn(states[j], t) == SeatIn(states[i], t)
    decreases j
  {
    if i < j {
      var k := j - 1;
      SoldIsFinal(states, acts, t, i, k);
      SoldSeatStays(states, acts, t, k);
    }
  }

  /** Calls past the availability check and not yet enqueued: about to write under a live lease, or enqueueing. */
  function PastCheck(s: State, t: Id): set<nat> {
    set r | r in s.calls && TicketOf(s.calls, r) == t
            && ((s.calls[r].phase.WritingFlag? && Live(s.now, s.calls[r])) || s.calls[r].phase.Enqueueing?)
  }

  /** Unresolved jobs for `t`. */
  function OpenJobs(s: State, t: Id): set<nat> {
    set r | r in s.jobs && s.jobs[r].status.Queued? && !s.jobs[r].committed && s.jobs[r].booking.ticketId == t
  }

  /** Reservations that `t` is linked to. */
  function LinkedTo(s: State, t: Id): set<Id> {
    set id | id in s.db.reservations && t in s.db.tickets && s.db.tickets[t].reservationId == Some(id)
  }

  lemma AtMostOne<T>(a: set<T>)
    requires forall x, y | x in a && y in a :: x == y
    ensures |a| <= 1
  {
    if a != {} {
      var x :| x in a;
      assert a == {x};
    }
  }

  lemma OneContender(s: State, t: Id, q: nat, r: nat)
    requires SeatingInv(s.now, s.leases, s.flags, s.calls, s.jobs, s.db)
    requires q in PastCheck(s, t) + OpenJobs(s, t) && r in PastCheck(s, t) + OpenJobs(s, t)
    ensures q == r && Available(s.db, t)
    ensures q in PastCheck(s, t) ==> q !in OpenJobs(s, t)
  {
    assert Unsettled(s.calls, s.jobs, q) ==> Staked(s.calls, s.jobs, q) && TicketOf(s.calls, q) == t;
    assert Unsettled(s.calls, s.jobs, r) ==> Staked(s.calls, s.jobs, r) && TicketOf(s.calls, r) == t;
  }

  /** No double sale: per ticket, calls past the check, unresolved jobs and reservations total at most one. */
  lemma NoDoubleSale(s: State, t: Id)
    requires Inv(s)
    ensures |PastCheck(s, t)| + |OpenJobs(s, t)| + |LinkedTo(s, t)| <= 1
  {
    var contenders := PastCheck(s, t) + OpenJobs(s, t);
    forall q, r | q in contenders && r in contenders
      ensures q == r && Available(s.db, t)
      ensures q in PastCheck(s, t) ==> q !in OpenJobs(s, t)
    {
      OneContender(s, t, q, r);
    }
    assert PastCheck(s, t) * OpenJobs(s, t) == {};
    AtMostOne(contenders);
    AtMostOne(LinkedTo(s, t));
    assert contenders != {} ==> LinkedTo(s, t) == {};
  }

  lemma RunSellsOnce(states: seq<State>, acts: seq<Action>, t: Id, i: nat)
    requires SafeRun(states, acts) && i <= |acts|
    ensures |PastCheck(states[i], t)| + |OpenJobs(states[i], t)| + |LinkedTo(states[i], t)| <= 1
  {
    RunInv(states, acts, i);
    NoDoubleSale(states[i], t);
  }

  /** A call past its check whose lease has run out, or a call that has ended. */
  predicate OutOfTime(s: State, r: nat) {
    r in s.calls && (if s.calls[r].phase.WritingFlag? then !Live(s.now, s.calls[r]) else Ended(s.calls[r].phase))
  }

  predicate Ended(p: Phase) {
    p.Releasing? || p.Returned? || p.Crashed?
  }

  lemma OutOfTimeStays(s: State, a: Action, r: nat)
    requires Enabled(s, a) && WritesWithin(s, a, LEASE, LEASE) && OutOfTime(s, r)
    ensures OutOfTime(Apply(s, a), r)
  {
  }

  lemma OutOfTimeNeverWrites(s: State, a: Action, r: nat)
    requires Enabled(s, a) && WritesWithin(s, a, LEASE, LEASE) && OutOfTime(s, r)
    ensures a != Seating(r, WriteFlag) && a != Seating(r, Fault(true))
  {
  }

  lemma OutOfTimeStaysAt(states: seq<State>, acts: seq<Action>, r: nat, k: nat)
    requires SafeRun(states, acts) && k < |acts| && OutOfTime(states[k], r)
    ensures OutOfTime(states[k + 1], r)
    ensures acts[k] != Seating(r, WriteFlag) && acts[k] != Seating(r, Fault(true))
  {
    RunInv(states, acts, k);
    OutOfTimeStays(states[k], acts[k], r);
    OutOfTimeNeverWrites(states[k], acts[k], r);
  }

  /** The calls past the check that are not counted never write their flag: once the lease has run out, no
      later step of a safe run is the call's flag write. */
  lemma {:induction false} LateCallsNeverWrite(states: seq<State>, acts: seq<Action>, r: nat, i: nat, k: nat)
    requires SafeRun(states, acts) && i <= k < |acts| && OutOfTime(states[i], r)
    ensures OutOfTime(states[k], r) && acts[k] != Seating(r, WriteFlag) && acts[k] != Seating(r, Fault(true))
    decreases k
  {
    if i < k {
      var j := k - 1;
      LateCallsNeverWrite(states, acts, r, i, j);
      OutOfTimeStaysAt(states, acts, r, j);
    }
    OutOfTimeStaysAt(states, acts, r, k);
  }

  // ---- What the rows keep ----

  /** The reservation row a sold ticket is linked to. */
  function LinkOf(db: Db, t: Id): (Id, ReservationRow)
    requires IsSold(db, t)
  {
    (db.tickets[t].reservationId.value, db.reservations[db.tickets[t].reservationId.value])
  }

  /** A worker commits a job that books `t`. */
  predicate Relinks(s: State, a: Action, t: Id) {
    a.Worker? && Commits(a.work) && a.work.r in s.jobs && s.jobs[a.work.r].booking.ticketId == t
  }

  /** A worker commits a job that has committed before. */
  predicate Redelivers(s: State, a: Action) {
    a.Worker? && Commits(a.work) && a.work.r in s.jobs && s.jobs[a.work.r].committed
  }

  lemma WorkOnSoldRow(s: State, step: WorkerStep, t: Id)
    requires SeatingInv(s.now, s.leases, s.flags, s.calls, s.jobs, s.db) && ScheduleInv(s.jobs, s.schedule)
    requires WorkerCan(s.now, s.jobs, s.schedule, s.db, step) && IsSold(s.db, t)
    ensures SoldTo(WorkerDoes(s, step).db, t, OwnerOf(s.db, t))
    ensures Relinks(s, Worker(step), t) ==>
      && s.jobs[step.r].committed && s.jobs[step.r].booking.userId == OwnerOf(s.db, t)
      && LinkOf(WorkerDoes(s, step).db, t).0 !in s.db.reservations
    ensures !Relinks(s, Worker(step), t) ==> LinkOf(WorkerDoes(s, step).db, t) == LinkOf(s.db, t)
  {
    if Commits(step) {
      assert Scheduled(s.schedule, step.r);
      CommitTouchesOwnTicketOnly(s.now, s.leases, s.flags, s.calls, s.jobs, s.schedule, s.db, step.r, step.r);
      SaleTouchesOneTicket(s.db, s.jobs[step.r].booking, step.sale.value, t, OwnerOf(s.db, t));
    }
  }

  lemma StandingOnSoldRow(s: State, q: nat, step: StandingStep, t: Id)
    requires StandingInv(s.now, s.eventLeases, s.standing, s.db)
    requires StandingCan(s.now, s.eventLeases, s.standing, s.db, q, step) && IsSold(s.db, t)
    requires step.CommitSale? ==> s.now < s.standing[q].lockedAt + LEASE
    ensures IsSold(StandingDoes(s, q, step).db, t) && LinkOf(StandingDoes(s, q, step).db, t) == LinkOf(s.db, t)
  {
    assert step.CommitSale? ==> SaleInv(s.now, s.db, s.standing[q]);
  }

  /** A sold row is never taken over. Its reservation changes exactly when a worker commits a job that books
      the ticket; that job is its owner's own, and has committed before. */
  lemma SoldRowStays(s: State, a: Action, t: Id)
    requires Inv(s) && TimelyStep(s, a, LEASE, LEASE, FLAG_TTL) && IsSold(s.db, t)
    ensures SoldTo(Apply(s, a).db, t, OwnerOf(s.db, t))
    ensures LinkOf(Apply(s, a).db, t) != LinkOf(s.db, t) <==> Relinks(s, a, t)
    ensures Relinks(s, a, t) ==>
      && Redelivers(s, a)
      && s.jobs[a.work.r].booking.userId == OwnerOf(s.db, t)
      && LinkOf(Apply(s, a).db, t).0 !in s.db.reservations
  {
    match a
    case Worker(step) => WorkOnSoldRow(s, step, t);
    case Standing(q, step) => StandingOnSoldRow(s, q, step, t);
    case _ =>
  }

  lemma JobFindsRow(s: State, r: nat)
    requires Inv(s) && r in s.schedule.active
    ensures r in s.jobs
    ensures var j := s.jobs[r];
      if j.committed then SoldTo(s.db, j.booking.ticketId, j.booking.userId)
      else Available(s.db, j.booking.ticketId) && s.db.tickets[j.booking.ticketId].reservationId.None?
  {
    assert Scheduled(s.schedule, r);
    CommitTouchesOwnTicketOnly(s.now, s.leases, s.flags, s.calls, s.jobs, s.schedule, s.db, r, r);
  }

  /** The unconditional update never takes a row from anybody: whenever one of the workers commits, in any run,
      a first delivery finds the row available and unlinked, a redelivery finds it sold to the job's own user. */
  lemma CommitNeverTakesARow(states: seq<State>, acts: seq<Action>, i: nat)
    requires SafeRun(states, acts) && i < |acts| && acts[i].Worker? && Commits(acts[i].work)
    ensures var s, r := states[i], acts[i].work.r;
      && r in s.jobs
      && var j := s.jobs[r];
         if j.committed then SoldTo(s.db, j.booking.ticketId, j.booking.userId)
         else Available(s.db, j.booking.ticketId) && s.db.tickets[j.booking.ticketId].reservationId.None?
  {
    RunInv(states, acts, i);
    JobFindsRow(states[i], acts[i].work.r);
  }

  lemma ReservationsStay(s: State, a: Action)
    requires Enabled(s, a)
    ensures s.db.reservations.Keys <= Apply(s, a).db.reservations.Keys
  {
  }

  predicate RelinksAt(states: seq<State>, acts: seq<Action>, t: Id, k: nat) {
    k < |states| && k < |acts| && Relinks(states[k], acts[k], t)
  }

  ghost predicate RelinkedBetween(states: seq<State>, acts: seq<Action>, t: Id, i: nat, j: nat) {
    exists k: nat :: i <= k < j && RelinksAt(states, acts, t, k)
  }

  lemma SoldRowStaysAt(states: seq<State>, acts: seq<Action>, t: Id, k: nat)
    requires SafeRun(states, acts) && k < |acts| && IsSold(states[k].db, t)
    ensures SoldTo(states[k + 1].db, t, OwnerOf(states[k].db, t))
    ensures states[k].db.reservations.Keys <= states[k + 1].db.reservations.Keys
    ensures if RelinksAt(states, acts, t, k) then LinkOf(states[k + 1].db, t).0 !in states[k].db.reservations
            else LinkOf(states[k + 1].db, t) == LinkOf(states[k].db, t)
  {
    RunInv(states, acts, k);
    SoldRowStays(states[k], acts[k], t);
    ReservationsStay(states[k], acts[k]);
  }

  lemma {:induction false} LinkOverRun(states: seq<State>, acts: seq<Action>, t: Id, i: nat, j: nat)
    requires SafeRun(states, acts) && i <= j <= |acts| && IsSold(states[i].db, t)
    ensures SoldTo(states[j].db, t, OwnerOf(states[i].db, t))
    ensures states[i].db.reservations.Keys <= states[j].db.reservations.Keys
    ensures if RelinkedBetween(states, acts, t, i, j) then LinkOf(states[j].db, t).0 !in states[i].db.reservations
            else LinkOf(states[j].db, t) == LinkOf(states[i].db, t)
    decreases j
  {
    if i < j {
      var k := j - 1;
      LinkOverRun(states, acts, t, i, k);
      SoldRowStaysAt(states, acts, t, k);
      assert RelinkedBetween(states, acts, t, i, j) <==> RelinkedBetween(states, acts, t, i, k) || RelinksAt(states, acts, t, k);
    }
  }

  /** Over a run, a sold row keeps its owner; and it keeps its reservation if and only if no job that books
      the ticket is committed again in between. */
  lemma SoldRowIsFinal(states: seq<State>, acts: seq<Action>, t: Id, i: nat, j: nat)
    requires SafeRun(states, acts) && i <= j <= |acts| && IsSold(states[i].db, t)
    ensures SoldTo(states[j].db, t, OwnerOf(states[i].db, t))
    ensures LinkOf(states[j].db, t) == LinkOf(states[i].db, t) <==> !RelinkedBetween(states, acts, t, i, j)
  {
    LinkOverRun(states, acts, t, i, j);
    assert LinkOf(states[i].db, t).0 in states[i].db.reservations;
  }

  // ---- Conservation ----

  /** How many of the first `k` actions commit a job again. */
  function Redeliveries(states: seq<State>, acts: seq<Action>, k: nat): nat
    requires k <= |acts| && k <= |states|
  {
    if k == 0 then 0
    else Redeliveries(states, acts, k - 1) + (if Redelivers(states[k - 1], acts[k - 1]) then 1 else 0)
  }

  lemma RedeliveredAfter(s: State, a: Action)
    requires Enabled(s, a)
    ensures Apply(s, a).redelivered == s.redelivered + (if Redelivers(s, a) then 1 else 0)
  {
  }

  lemma {:induction false} RedeliveredCounts(states: seq<State>, acts: seq<Action>, k: nat)
    requires Run(states, acts) && Init(states[0]) && k <= |acts|
    ensures states[k].redelivered == Redeliveries(states, acts, k)
  {
    if k > 0 {
      RedeliveredCounts(states, acts, k - 1);
      assert StepAt(states, acts, k - 1);
      RedeliveredAfter(states[k - 1], acts[k - 1]);
    }
  }

  /** Every reservation is the reservation of exactly one ticket, which is sold. */
  ghost predicate OneTicketEach(db: Db) {
    forall r | r in db.reservations ::
      && (exists t :: t in SoldTickets(db) && db.tickets[t].reservationId == Some(r))
      && (forall t, u | t in db.tickets && u in db.tickets && db.tickets[t].reservationId == Some(r) ::
            db.tickets[u].reservationId == Some(r) ==> t == u)
  }

  lemma OneTicketEachIffCountsAgree(db: Db)
    requires Consistent(db)
    ensures OneTicketEach(db) <==> |db.reservations| == |SoldTickets(db)|
  {
    if |db.reservations| == |SoldTickets(db)| {
      forall r | r in db.reservations
        ensures exists t :: t in SoldTickets(db) && db.tickets[t].reservationId == Some(r)
        ensures forall t, u | t in db.tickets && u in db.tickets && db.tickets[t].reservationId == Some(r) ::
                  db.tickets[u].reservationId == Some(r) ==> t == u
      {
        EveryReservationHasOneTicket(db, r);
      }
    }
    if OneTicketEach(db) {
      LinkedSize(db, SoldTickets(db));
      assert LinkedReservations(db, SoldTickets(db)) == db.reservations.Keys;
    }
  }

  /** Conservation across both routes, in every state of a run: tickets are unavailable exactly when linked;
      reservations number the sold tickets plus the redeliveries so far; and sold tickets and reservations
      correspond one to one if and only if there were none. */
  lemma Conservation(states: seq<State>, acts: seq<Action>, i: nat)
    requires SafeRun(states, acts) && i <= |acts|
    ensures var db := states[i].db;
      && (forall t | t in db.tickets :: db.tickets[t].isAvailable <==> db.tickets[t].reservationId.None?)
      && |db.reservations| == |SoldTickets(db)| + Redeliveries(states, acts, i)
      && (OneTicketEach(db) <==> Redeliveries(states, acts, i) == 0)
  {
    RunInv(states, acts, i);
    RedeliveredCounts(states, acts, i);
    OneTicketEachIffCountsAgree(states[i].db);
  }

  /** No job waiting for an attempt has committed. */
  ghost predicate FirstDeliveries(jobs: map<nat, Job>) {
    forall r | r in jobs && jobs[r].status.Queued? :: !jobs[r].committed
  }

  /** A commit that the queue does not learn of. */
  predicate Unacknowledged(a: Action) {
    a.Worker? && Commits(a.work) && !a.work.ending.Acked?
  }

  lemma FirstDeliveriesKept(s: State, a: Action)
    requires FirstDeliveries(s.jobs) && Enabled(s, a) && !Unacknowledged(a)
    ensures FirstDeliveries(Apply(s, a).jobs)
  {
  }

  lemma FirstDeliveryIsNoRepeat(s: State, a: Action)
    requires FirstDeliveries(s.jobs) && ScheduleInv(s.jobs, s.schedule) && Enabled(s, a)
    ensures !Redelivers(s, a)
  {
    assert a.Worker? && Commits(a.work) ==> Scheduled(s.schedule, a.work.r);
  }

  /** Nothing is ever redelivered in a run in which every commit is acknowledged. */
  lemma {:induction false} AcknowledgedRunRepeatsNothing(states: seq<State>, acts: seq<Action>, i: nat)
    requires SafeRun(states, acts) && i <= |acts|
    requires forall k: nat | k < i :: !Unacknowledged(acts[k])
    ensures Redeliveries(states, acts, i) == 0 && FirstDeliveries(states[i].jobs)
  {
    if i > 0 {
      var k := i - 1;
      AcknowledgedRunRepeatsNothing(states, acts, k);
      RunInv(states, acts, k);
      FirstDeliveriesKept(states[k], acts[k]);
      FirstDeliveryIsNoRepeat(states[k], acts[k]);
    }
  }

  // ---- What the answers mean ----

  /** The seat's value by what a reader of its flag and row can see. */
  lemma SeatSeen(s: State, t: Id)
    requires Inv(s) && ClaimsYoungerThan(s, FLAG_TTL)
    ensures var seat := SeatIn(s, t);
      && (seat.Sold? <==> IsSold(s.db, t))
      && (seat.Free? ==> !FlagUp(s.now, s.flags, t))
      && (seat.Claimed? || seat.Quarantined? ==> FlagUp(s.now, s.flags, t))
  {
    InvSettled(s);
    if q :| Unsettled(s.calls, s.jobs, q) && TicketOf(s.calls, q) == t {
      ClaimedSeat(s.now, s.flags, s.calls, s.jobs, s.db, q);
    } else {
      UnclaimedSeat(s.now, s.flags, s.calls, s.jobs, s.db, t);
    }
  }

  lemma FlagRefusal(s: State, r: nat)
    requires Inv(s) && ClaimsYoungerThan(s, FLAG_TTL) && At(s.calls, r, ReadingFlag)
    ensures var seat := SeatIn(s, TicketOf(s.calls, r));
      var p := CallDoes(s, r, ReadFlag).calls[r].phase;
      && (p == Releasing(SoldOut) || p == ReadingRow)
      && (seat.Free? ==> p == ReadingRow)
      && (seat.Claimed? || seat.Quarantined? ==> p == Releasing(SoldOut))
  {
    SeatSeen(s, TicketOf(s.calls, r));
  }

  lemma RowRefusal(s: State, r: nat)
    requires Inv(s) && ClaimsYoungerThan(s, FLAG_TTL) && At(s.calls, r, ReadingRow)
    ensures var t := TicketOf(s.calls, r);
      var seat := SeatIn(s, t);
      var p := CallDoes(s, r, ReadRow).calls[r].phase;
      && (p == Releasing(NotFound) <==> t !in s.db.tickets)
      && (p == Releasing(NotAvailable) <==> seat.Sold?)
      && (Live(s.now, s.calls[r]) ==> (p == WritingFlag <==> t in s.db.tickets && seat.Free?))
  {
    SeatSeen(s, TicketOf(s.calls, r));
  }

  /** In every run, the sold-out refusal is given at the flag read: never for a seat free at that moment,
      always for a claimed or quarantined one. */
  lemma FlagRefusalsAreSound(states: seq<State>, acts: seq<Action>, r: nat, i: nat)
    requires SafeRun(states, acts) && i < |acts| && acts[i] == Seating(r, ReadFlag)
    ensures r in states[i].calls && r in states[i + 1].calls
    ensures var seat := SeatIn(states[i], TicketOf(states[i].calls, r));
      var p := states[i + 1].calls[r].phase;
      && (p == Releasing(SoldOut) || p == ReadingRow)
      && (seat.Free? ==> p == ReadingRow)
      && (seat.Claimed? || seat.Quarantined? ==> p == Releasing(SoldOut))
  {
    RunInv(states, acts, i);
    FlagRefusal(states[i], r);
  }

  /** The other refusals are given at the row read; under a live lease, the call goes on exactly when the
      seat exists and is free at that moment. */
  lemma RowRefusalsAreSound(states: seq<State>, acts: seq<Action>, r: nat, i: nat)
    requires SafeRun(states, acts) && i < |acts| && acts[i] == Seating(r, ReadRow)
    ensures r in states[i].calls && r in states[i + 1].calls
    ensures var t := TicketOf(states[i].calls, r);
      var seat := SeatIn(states[i], t);
      var p := states[i + 1].calls[r].phase;
      && (p == Releasing(NotFound) <==> t !in states[i].db.tickets)
      && (p == Releasing(NotAvailable) <==> seat.Sold?)
      && (Live(states[i].now, states[i].calls[r]) ==> (p == WritingFlag <==> t in states[i].db.tickets && seat.Free?))
  {
    RunInv(states, acts, i);
    RowRefusal(states[i], r);
  }

  /** The job of a granted call used up its attempts, or stalled once too often, without selling the ticket. */
  predicate GivenUp(s: State, r: nat) {
    r in s.jobs && s.jobs[r].status.Exhausted? && UsedUp(s.jobs[r]) && !s.jobs[r].committed
  }

  predicate Unresolved(s: State, r: nat) {
    r in s.jobs && s.jobs[r].status.Queued? && !s.jobs[r].committed
  }

  predicate ToldGranted(s: State, r: nat) {
    r in s.calls && Told(s.calls[r].phase, Granted)
  }

  lemma JobStays(s: State, a: Action, r: nat)
    requires ScheduleInv(s.jobs, s.schedule) && Enabled(s, a) && r in s.jobs
    ensures r in Apply(s, a).jobs && Apply(s, a).jobs[r].booking == s.jobs[r].booking
    ensures GivenUp(s, r) ==> GivenUp(Apply(s, a), r)
  {
  }

  lemma JobStaysAt(states: seq<State>, acts: seq<Action>, r: nat, k: nat)
    requires SafeRun(states, acts) && k < |acts| && r in states[k].jobs
    ensures r in states[k + 1].jobs && states[k + 1].jobs[r].booking == states[k].jobs[r].booking
    ensures GivenUp(states[k], r) ==> GivenUp(states[k + 1], r)
  {
    RunInv(states, acts, k);
    JobStays(states[k], acts[k], r);
  }

  lemma {:induction false} JobStaysForever(states: seq<State>, acts: seq<Action>, r: nat, i: nat, j: nat)
    requires SafeRun(states, acts) && i <= j <= |acts| && r in states[i].jobs
    ensures r in states[j].jobs && states[j].jobs[r].booking == states[i].jobs[r].booking
    ensures GivenUp(states[i], r) ==> GivenUp(states[j], r)
    decreases j
  {
    if i < j {
      JobStaysForever(states, acts, r, i, j - 1);
      JobStaysAt(states, acts, r, j - 1);
    }
  }

  lemma GrantHasJob(states: seq<State>, acts: seq<Action>, r: nat, i: nat)
    requires SafeRun(states, acts) && i <= |acts| && ToldGranted(states[i], r)
    ensures r in states[i].jobs && states[i].jobs[r].booking == states[i].calls[r].booking
  {
    RunInv(states, acts, i);
  }

  lemma JobFate(states: seq<State>, acts: seq<Action>, r: nat, i: nat)
    requires SafeRun(states, acts) && i <= |acts| && r in states[i].jobs
    ensures var b := states[i].jobs[r].booking;
      Unresolved(states[i], r) || GivenUp(states[i], r) || SoldTo(states[i].db, b.ticketId, b.userId)
  {
    RunInv(states, acts, i);
  }

  /** Once a call has been told Granted, its job is unresolved, or its user holds the ticket, or the
      job used up its attempts or its stalls; in every later state. */
  lemma GrantedAnswersHold(states: seq<State>, acts: seq<Action>, r: nat, i: nat, j: nat)
    requires SafeRun(states, acts) && i <= j <= |acts| && ToldGranted(states[i], r)
    ensures var b := states[i].calls[r].booking;
      Unresolved(states[j], r) || GivenUp(states[j], r) || SoldTo(states[j].db, b.ticketId, b.userId)
  {
    GrantHasJob(states, acts, r, i);
    JobStaysForever(states, acts, r, i, j);
    JobFate(states, acts, r, j);
  }

  /** Only an enqueue makes a Granted answer. */
  lemma OnlyEnqueueGrants(s: State, a: Action, q: nat)
    requires Enabled(s, a) && !ToldGranted(s, q) && ToldGranted(Apply(s, a), q)
    ensures a == Seating(q, Enqueue) && At(s.calls, q, Enqueueing)
    ensures TicketOf(Apply(s, a).calls, q) == TicketOf(s.calls, q)
  {
  }

  /** While a call is enqueueing, any earlier job for its ticket has given up. */
  lemma EnqueueingMeansGivenUp(s: State, r: nat, q: nat)
    requires SeatingInv(s.now, s.leases, s.flags, s.calls, s.jobs, s.db)
    requires At(s.calls, q, Enqueueing) && q != r && r in s.jobs && TicketOf(s.calls, q) == s.jobs[r].booking.ticketId
    ensures GivenUp(s, r)
  {
    assert Staked(s.calls, s.jobs, q);
    assert !Staked(s.calls, s.jobs, r);
  }

  lemma BookingStays(s: State, a: Action, q: nat)
    requires Enabled(s, a)
    ensures q in s.calls ==> q in Apply(s, a).calls && Apply(s, a).calls[q].booking == s.calls[q].booking
  {
  }

  lemma NextGrant(states: seq<State>, acts: seq<Action>, r: nat, q: nat, k: nat)
    requires SafeRun(states, acts) && k < |acts| && q != r && r in states[k].jobs
    requires ToldGranted(states[k + 1], q) && TicketOf(states[k + 1].calls, q) == states[k].jobs[r].booking.ticketId
    ensures ToldGranted(states[k], q) ==> TicketOf(states[k].calls, q) == states[k].jobs[r].booking.ticketId
    ensures !ToldGranted(states[k], q) ==> GivenUp(states[k], r)
  {
    RunInv(states, acts, k);
    BookingStays(states[k], acts[k], q);
    if !ToldGranted(states[k], q) {
      OnlyEnqueueGrants(states[k], acts[k], q);
      EnqueueingMeansGivenUp(states[k], r, q);
    }
  }

  /** While a granted call has not given up, nobody else is told Granted for its ticket. */
  lemma {:induction false} NobodyElseIsGranted(states: seq<State>, acts: seq<Action>, r: nat, q: nat, i: nat, j: nat)
    requires SafeRun(states, acts) && i <= j <= |acts| && q != r
    requires ToldGranted(states[i], r) && !ToldGranted(states[i], q)
    requires ToldGranted(states[j], q) && TicketOf(states[j].calls, q) == TicketOf(states[i].calls, r)
    ensures GivenUp(states[j], r)
    decreases j
  {
    if i < j {
      GrantHasJob(states, acts, r, i);
      JobStaysForever(states, acts, r, i, j - 1);
      NextGrant(states, acts, r, q, j - 1);
      if ToldGranted(states[j - 1], q) {
        NobodyElseIsGranted(states, acts, r, q, i, j - 1);
      }
      JobStaysAt(states, acts, r, j - 1);
    }
  }

  /** Of two calls told Granted for one ticket, at least one has given up. */
  lemma OneGrantHolds(states: seq<State>, acts: seq<Action>, r: nat, q: nat, i: nat)
    requires SafeRun(states, acts) && i <= |acts| && q != r
    requires ToldGranted(states[i], r) && ToldGranted(states[i], q)
    requires TicketOf(states[i].calls, q) == TicketOf(states[i].calls, r)
    ensures GivenUp(states[i], r) || GivenUp(states[i], q)
  {
    RunInv(states, acts, i);
    assert !(Staked(states[i].calls, states[i].jobs, r) && Staked(states[i].calls, states[i].jobs, q));
  }

  lemma FailedJobIsRecent(s: State, r: nat)
    requires JobsInv(s.now, s.calls, s.jobs) && GivenUp(s, r)
    ensures r in s.calls && s.calls[r].flaggedAt + FLAG_TTL <= s.jobs[r].status.at + FAILED_JOB_AGE
  {
  }

  /** In every state of a run, while a failed claim's flag is still up, the failed job's record is still kept. */
  lemma FailedJobOutlivesFlag(states: seq<State>, acts: seq<Action>, r: nat, i: nat)
    requires SafeRun(states, acts) && i <= |acts| && GivenUp(states[i], r)
    ensures r in states[i].calls
    ensures states[i].now < states[i].calls[r].flaggedAt + FLAG_TTL ==> states[i].now < states[i].jobs[r].status.at + FAILED_JOB_AGE
    ensures FAILED_JOB_AGE == 86400000
  {
    RunInv(states, acts, i);
    FailedJobIsRecent(states[i], r);
  }
}
