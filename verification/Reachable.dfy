/** Runs built step by step: what a buyer who meets no obstacle does to any state that can be reached. */
module Reachable {
  import opened Durations
  import opened Tables
  import opened SaleProtocol
  import opened SaleInvariant
  import opened SaleRuns

  // ---- Two buyers, a seat, and a place in a standing event ----

  const SEAT := Id("seat")
  const SHOW := Id("show")
  const SPOT := Id("spot")
  const HALL := Id("hall")
  const FIRST := Booking(Id("first"), SEAT, SHOW)
  const SECOND := Booking(Id("second"), SEAT, SHOW)
  const ONE := Id("reservation one")
  const TWO := Id("reservation two")

  function Opening(): State {
    State(0, map[], map[], map[], map[], Schedule([], map[], map[], 0, 0, 1), map[], map[],
          Db({FIRST.userId, SECOND.userId}, map[SHOW := SEATING, HALL := STANDING],
             map[SEAT := TicketRow(SHOW, None, 1.0, 1, Id("code"), "image", true),
                 SPOT := TicketRow(HALL, None, 1.0, 1, Id("stub"), "image", true)], map[]),
          0)
  }

  // ---- Runs step by step ----

  ghost predicate EndsIn(states: seq<State>, acts: seq<Action>, s: State) {
    |states| == |acts| + 1 && states[|acts|] == s
  }

  ghost predicate Reaches(s: State, w: nat, v: nat, d: nat) {
    exists states, acts :: TimelyRun(states, acts, w, v, d) && EndsIn(states, acts, s)
  }

  lemma ReachStart(s: State, w: nat, v: nat, d: nat)
    requires Init(s)
    ensures Reaches(s, w, v, d)
  {
    assert TimelyRun([s], [], w, v, d) && EndsIn([s], [], s);
  }

  lemma TimelyAtSame(xs: seq<State>, bs: seq<Action>, states: seq<State>, acts: seq<Action>, w: nat, v: nat, d: nat, i: nat)
    requires xs <= states && bs <= acts && TimelyAt(xs, bs, w, v, d, i)
    ensures TimelyAt(states, acts, w, v, d, i)
  {
    assert states[i] == xs[i] && acts[i] == bs[i];
  }

  lemma TimelyAtEnd(states: seq<State>, acts: seq<Action>, w: nat, v: nat, d: nat)
    requires 0 < |acts| < |states| && TimelyStep(states[|acts| - 1], acts[|acts| - 1], w, v, d)
    ensures TimelyAt(states, acts, w, v, d, |acts| - 1)
  {
  }

  lemma TimelyRunGrows(xs: seq<State>, bs: seq<Action>, a: Action, w: nat, v: nat, d: nat)
    requires TimelyRun(xs, bs, w, v, d) && TimelyStep(xs[|bs|], a, w, v, d)
    ensures TimelyRun(xs + [Apply(xs[|bs|], a)], bs + [a], w, v, d)
  {
    RunGrows(xs, bs, a);
    var states, acts := xs + [Apply(xs[|bs|], a)], bs + [a];
    forall i: nat | i < |acts| ensures TimelyAt(states, acts, w, v, d, i) {
      if i < |bs| {
        assert TimelyAt(xs, bs, w, v, d, i);
        TimelyAtSame(xs, bs, states, acts, w, v, d, i);
      } else {
        TimelyAtEnd(states, acts, w, v, d);
      }
    }
  }

  ghost predicate EndsThrough(states: seq<State>, acts: seq<Action>, s: State, s': State) {
    |acts| > 0 && |states| == |acts| + 1 && states[|acts| - 1] == s && states[|acts|] == s'
  }

  lemma ReachThrough(s: State, a: Action, w: nat, v: nat, d: nat)
    requires Reaches(s, w, v, d) && TimelyStep(s, a, w, v, d)
    ensures exists states, acts :: TimelyRun(states, acts, w, v, d) && EndsThrough(states, acts, s, Apply(s, a))
  {
    var xs, bs :| TimelyRun(xs, bs, w, v, d) && EndsIn(xs, bs, s);
    TimelyRunGrows(xs, bs, a, w, v, d);
    assert EndsThrough(xs + [Apply(s, a)], bs + [a], s, Apply(s, a));
  }

  lemma ReachStep(s: State, a: Action, s': State, w: nat, v: nat, d: nat)
    requires Reaches(s, w, v, d) && TimelyStep(s, a, w, v, d) && s' == Apply(s, a)
    ensures Reaches(s', w, v, d)
  {
    ReachThrough(s, a, w, v, d);
    var states, acts :| TimelyRun(states, acts, w, v, d) && EndsThrough(states, acts, s, Apply(s, a));
    assert EndsIn(states, acts, s');
  }

  // ---- What one buyer does to any state ----

  function WithPhase(s: State, r: nat, p: Phase): State
    requires r in s.calls
  {
    s.(calls := s.calls[r := s.calls[r].(phase := p)])
  }

  function Locked(s: State, r: nat): State
    requires r in s.calls
  {
    s.(leases := s.leases[TicketOf(s.calls, r) := Lease(r, s.now + LEASE)],
       calls := s.calls[r := s.calls[r].(phase := ReadingFlag, lockedAt := s.now)])
  }

  function Flagged(s: State, r: nat): State
    requires r in s.calls
  {
    s.(flags := s.flags[TicketOf(s.calls, r) := s.now + FLAG_TTL],
       calls := s.calls[r := s.calls[r].(phase := Enqueueing, flaggedAt := s.now)])
  }

  /** The state can be reached, and its open claims are young enough to go on. */
  ghost predicate Going(s: State, w: nat, v: nat, d: nat) {
    Reaches(s, w, v, d) && ClaimsYoungerThan(s, d)
  }

  /** A call step from a going state keeps it going if the caller's own claim, if any, is young. */
  lemma CallGoesOn(s: State, r: nat, step: CallStep, w: nat, v: nat, d: nat)
    requires Going(s, w, v, d) && Enabled(s, Seating(r, step)) && WritesWithin(s, Seating(r, step), w, v) && r !in s.jobs
    requires !step.Enqueue? && (Unsettled(CallDoes(s, r, step).calls, s.jobs, r) ==>
      s.now < CallDoes(s, r, step).calls[r].flaggedAt + d)
    ensures Going(CallDoes(s, r, step), w, v, d)
  {
    ClaimsStayYoung(s, r, step, d);
    ReachStep(s, Seating(r, step), CallDoes(s, r, step), w, v, d);
  }

  lemma ClaimsStayYoung(s: State, r: nat, step: CallStep, d: nat)
    requires Enabled(s, Seating(r, step)) && !step.Enqueue? && ClaimsYoungerThan(s, d)
    requires Unsettled(CallDoes(s, r, step).calls, s.jobs, r) ==> s.now < CallDoes(s, r, step).calls[r].flaggedAt + d
    ensures ClaimsYoungerThan(CallDoes(s, r, step), d)
  {
    forall q | q != r && Unsettled(CallDoes(s, r, step).calls, s.jobs, q) ensures Unsettled(s.calls, s.jobs, q) {}
  }

  lemma AcquireDoes(s: State, r: nat)
    requires At(s.calls, r, Arrived) && LeaseFree(s.leases, TicketOf(s.calls, r), s.now)
    ensures Enabled(s, Seating(r, Acquire)) && CallDoes(s, r, Acquire) == Locked(s, r)
  {
  }

  lemma WriteFlagDoes(s: State, r: nat)
    requires At(s.calls, r, WritingFlag)
    ensures Enabled(s, Seating(r, WriteFlag)) && CallDoes(s, r, WriteFlag) == Flagged(s, r)
  {
  }

  lemma Locks(s: State, r: nat, w: nat, v: nat, d: nat)
    requires Going(s, w, v, d) && At(s.calls, r, Arrived) && r !in s.jobs
    requires LeaseFree(s.leases, TicketOf(s.calls, r), s.now)
    ensures Going(Locked(s, r), w, v, d)
  {
    AcquireDoes(s, r);
    CallGoesOn(s, r, Acquire, w, v, d);
  }

  lemma ReadsFlag(s: State, r: nat, w: nat, v: nat, d: nat)
    requires Going(s, w, v, d) && At(s.calls, r, ReadingFlag) && r !in s.jobs
    requires !FlagUp(s.now, s.flags, TicketOf(s.calls, r))
    ensures Going(WithPhase(s, r, ReadingRow), w, v, d)
  {
    CallGoesOn(s, r, ReadFlag, w, v, d);
  }

  lemma ReadsRow(s: State, r: nat, w: nat, v: nat, d: nat)
    requires Going(s, w, v, d) && At(s.calls, r, ReadingRow) && r !in s.jobs
    requires Available(s.db, TicketOf(s.calls, r))
    ensures Going(WithPhase(s, r, WritingFlag), w, v, d)
  {
    CallGoesOn(s, r, ReadRow, w, v, d);
  }

  lemma Writes(s: State, r: nat, w: nat, v: nat, d: nat)
    requires Going(s, w, v, d) && At(s.calls, r, WritingFlag) && r !in s.jobs
    requires s.now < s.calls[r].lockedAt + w && d >= 1
    ensures Going(Flagged(s, r), w, v, d)
  {
    WriteFlagDoes(s, r);
    CallGoesOn(s, r, WriteFlag, w, v, d);
  }

  lemma Waits(s: State, duration: nat, w: nat, v: nat, d: nat)
    requires Going(s, w, v, d) && duration > 0 && ClaimsYoungerThan(s.(now := s.now + duration), d)
    ensures Going(s.(now := s.now + duration), w, v, d)
  {
    ReachStep(s, Tick(duration), s.(now := s.now + duration), w, v, d);
  }

  function Checked(s: State, r: nat): State
    requires r in s.calls
  {
    WithPhase(Locked(s, r), r, WritingFlag)
  }

  lemma PhaseTwice(s: State, r: nat, p: Phase, p': Phase)
    requires r in s.calls
    ensures WithPhase(WithPhase(s, r, p), r, p') == WithPhase(s, r, p')
  {
    assert s.calls[r := s.calls[r].(phase := p)][r := s.calls[r].(phase := p')] == s.calls[r := s.calls[r].(phase := p')];
  }

  /** With the lease free, the flag down and the row available, a call passes all its checks. */
  lemma Checks(s: State, r: nat, w: nat, v: nat, d: nat)
    requires Going(s, w, v, d) && At(s.calls, r, Arrived) && r !in s.jobs
    requires LeaseFree(s.leases, TicketOf(s.calls, r), s.now) && !FlagUp(s.now, s.flags, TicketOf(s.calls, r))
    requires Available(s.db, TicketOf(s.calls, r))
    ensures Going(Checked(s, r), w, v, d)
  {
    Locks(s, r, w, v, d);
    ReadsFlag(Locked(s, r), r, w, v, d);
    ReadsRow(WithPhase(Locked(s, r), r, ReadingRow), r, w, v, d);
    PhaseTwice(Locked(s, r), r, ReadingRow, WritingFlag);
  }

  lemma Arrives(s: State, r: nat, b: Booking, w: nat, v: nat, d: nat)
    requires Going(s, w, v, d) && r !in s.calls && r !in s.jobs && SeatingRequest(s.db, b.ticketId)
    ensures Going(s.(calls := s.calls[r := Call(b, Arrived, 0, 0)]), w, v, d)
  {
    CallGoesOn(s, r, Arrive(b), w, v, d);
  }

  /** Both buyers have arrived, and nothing else has happened. */
  function Both(): State {
    Opening().(calls := map[0 := Call(FIRST, Arrived, 0, 0)][1 := Call(SECOND, Arrived, 0, 0)])
  }

  lemma BothArrive(w: nat, v: nat, d: nat)
    ensures Going(Both(), w, v, d)
  {
    assert |SoldTickets(Opening().db)| == 0;
    ReachStart(Opening(), w, v, d);
    Arrives(Opening(), 0, FIRST, w, v, d);
    Arrives(Opening().(calls := map[0 := Call(FIRST, Arrived, 0, 0)]), 1, SECOND, w, v, d);
  }

  // ---- The worker, for a job that is added to an idle queue ----

  predicate Idle(s: State) {
    s.schedule.wait == [] && s.schedule.active == map[] && s.schedule.nextStart <= s.now && s.schedule.workers >= 1
  }

  /** Call `r` has added its job to the idle queue, and its first attempt has started. */
  function Started(s: State, r: nat): State
    requires r in s.calls
  {
    var next := s.now + LIMITER_DURATION;
    s.(calls := s.calls[r := s.calls[r].(phase := Releasing(Granted))],
       jobs := s.jobs[r := NewJob(s.calls[r].booking)],
       schedule := s.schedule.(wait := [], active := map[r := s.now], nextStart := next, due := next))
  }

  predicate CanSell(s: State, r: nat, id: Id) {
    r in s.calls && SaleTransaction(s.db, s.calls[r].booking, id).Some?
  }

  /** An attempt that sells the ticket and is reported. */
  function Sale(r: nat, id: Id): WorkerStep {
    EndAttempt(r, Some(id), Acked)
  }

  /** ... and that attempt has sold the ticket. */
  function SoldBy(s: State, r: nat, id: Id): State
    requires CanSell(s, r, id)
  {
    var at := Started(s, r);
    at.(jobs := at.jobs[r := NewJob(s.calls[r].booking).(status := Completed, committed := true)],
        schedule := at.schedule.(active := map[]),
        db := SaleTransaction(s.db, s.calls[r].booking, id).value)
  }

  lemma AddDoes(s: State, r: nat)
    requires Idle(s) && At(s.calls, r, Enqueueing) && r !in s.jobs
    ensures Enabled(s, Seating(r, Enqueue)) && CanStart(CallDoes(s, r, Enqueue).schedule, s.now)
    ensures WorkerDoes(CallDoes(s, r, Enqueue), StartAttempt) == Started(s, r)
  {
    assert [r][1..] == [];
  }

  lemma CommitDoes(s: State, r: nat, id: Id)
    requires Idle(s) && CanSell(s, r, id)
    ensures Enabled(Started(s, r), Worker(Sale(r, id)))
    ensures Apply(Started(s, r), Worker(Sale(r, id))) == SoldBy(s, r, id)
  {
    assert map[r := s.now] - {r} == map[];
  }

  /** No step of the worker opens a claim. */
  lemma WorkGoesOn(s: State, step: WorkerStep, w: nat, v: nat, d: nat)
    requires Going(s, w, v, d) && Enabled(s, Worker(step))
    ensures Going(WorkerDoes(s, step), w, v, d)
  {
    assert ClaimsYoungerThan(WorkerDoes(s, step), d) by {
      forall r | Unsettled(s.calls, WorkerDoes(s, step).jobs, r) ensures Unsettled(s.calls, s.jobs, r) {}
    }
    ReachStep(s, Worker(step), WorkerDoes(s, step), w, v, d);
  }

  lemma Adds(s: State, r: nat, w: nat, v: nat, d: nat)
    requires Going(s, w, v, d) && At(s.calls, r, Enqueueing) && r !in s.jobs
    ensures Going(CallDoes(s, r, Enqueue), w, v, d)
  {
    var s' := CallDoes(s, r, Enqueue);
    assert ClaimsYoungerThan(s', d) by {
      forall q | Unsettled(s'.calls, s'.jobs, q)
        ensures Unsettled(s.calls, s.jobs, q) && s'.calls[q].flaggedAt == s.calls[q].flaggedAt
      {
      }
    }
    ReachStep(s, Seating(r, Enqueue), s', w, v, d);
  }

  lemma Starts(s: State, r: nat, w: nat, v: nat, d: nat)
    requires Going(s, w, v, d) && Idle(s) && At(s.calls, r, Enqueueing) && r !in s.jobs
    ensures Going(Started(s, r), w, v, d)
  {
    AddDoes(s, r);
    Adds(s, r, w, v, d);
    WorkGoesOn(CallDoes(s, r, Enqueue), StartAttempt, w, v, d);
  }

  lemma Sells(s: State, r: nat, id: Id, w: nat, v: nat, d: nat)
    requires Going(s, w, v, d) && Idle(s) && At(s.calls, r, Enqueueing) && r !in s.jobs && CanSell(s, r, id)
    ensures Going(SoldBy(s, r, id), w, v, d)
  {
    Starts(s, r, w, v, d);
    CommitDoes(s, r, id);
    WorkGoesOn(Started(s, r), Sale(r, id), w, v, d);
  }
}
