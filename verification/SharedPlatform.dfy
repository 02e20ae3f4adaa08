/** The stores that all application instances share, and the turns that callers take on them: each await gives
    everybody else a turn, and each effect on a store is one step of the protocol. Whatever the others do, the
    history of the stores is a run of the protocol. */
module SharedPlatform {
  import opened Durations
  import opened Tables
  import opened SaleProtocol
  import opened SaleInvariant
  import opened SaleRuns
  import opened Cache
  import opened Database

  // ---- Shared infrastructure ----

  class LockServer {
    var leases: map<Id, Lease>
    var eventLeases: map<Id, Lease>

    constructor ()
      ensures leases == map[] && eventLeases == map[]
    {
      leases, eventLeases := map[], map[];
    }
  }

  class ReservationQueue {
    var jobs: map<nat, Job>
    var schedule: Schedule

    constructor (now: nat, workers: nat)
      ensures jobs == map[] && schedule == Schedule([], map[], map[], now, now, workers)
    {
      jobs, schedule := map[], Schedule([], map[], map[], now, now, workers);
    }

    method Add(r: nat, booking: Booking, now: nat)
      modifies this
      ensures jobs == old(jobs)[r := Job(booking, 3, 1, Queued, false)]
      ensures schedule == old(schedule).(wait := old(schedule).wait + [r], due := schedule.due)
      ensures jobs == old(jobs)[r := NewJob(booking)] && schedule == Push(old(schedule), r, now)
    {
      jobs := jobs[r := NewJob(booking)];
      schedule := schedule.(wait := schedule.wait + [r],
                            due := if schedule.wait == [] then Max(schedule.nextStart, now) else schedule.due);
    }
  }

  /** The cache holds a model's flags under their keys. */
  ghost predicate HoldsFlags(entries: Store, flags: map<Id, nat>) {
    forall t: Id {:trigger SoldOutKey(t)} ::
      (SoldOutKey(t) in entries <==> t in flags) && (t in flags ==> entries[SoldOutKey(t)] == Entry(Truth, Some(flags[t])))
  }

  lemma DistinctFlagKeys(t: Id, u: Id)
    ensures SoldOutKey(t) == SoldOutKey(u) ==> t == u
  {
    assert SoldOutKey(t)[|SOLD_OUT|..] == t.text && SoldOutKey(u)[|SOLD_OUT|..] == u.text;
  }

  lemma RaisedFlagHeld(entries: Store, flags: map<Id, nat>, t: Id, until: nat)
    requires HoldsFlags(entries, flags)
    ensures HoldsFlags(entries[SoldOutKey(t) := Entry(Truth, Some(until))], flags[t := until])
  {
    forall u: Id ensures SoldOutKey(t) == SoldOutKey(u) ==> t == u { DistinctFlagKeys(t, u); }
  }

  lemma DroppedFlagHeld(entries: Store, flags: map<Id, nat>, t: Id)
    requires HoldsFlags(entries, flags)
    ensures HoldsFlags(entries - {SoldOutKey(t)}, flags - {t})
  {
    forall u: Id ensures SoldOutKey(t) == SoldOutKey(u) ==> t == u { DistinctFlagKeys(t, u); }
  }

  // ---- Turns ----

  datatype Caller = Seat(r: nat) | Stand(q: nat)

  predicate By(a: Action, caller: Caller) {
    match caller
    case Seat(r) => a.Seating? && a.r == r
    case Stand(q) => a.Standing? && a.q == q
  }

  /** A run from `s` to `s'` in which `caller` does nothing. */
  ghost predicate OthersLead(s: State, caller: Caller, s': State) {
    exists states, acts :: RunOfOthers(states, acts, caller) && states[0] == s && states[|acts|] == s'
  }

  ghost predicate RunOfOthers(states: seq<State>, acts: seq<Action>, caller: Caller) {
    Run(states, acts) && (forall i: nat | i < |acts| :: !By(acts[i], caller))
  }

  /** What nobody else can change about a call. */
  ghost predicate Untouched(s: State, caller: Caller, s': State) {
    match caller
    case Seat(r) =>
      && (r in s.calls <==> r in s'.calls) && (r in s.calls ==> s'.calls[r] == s.calls[r])
      && (r in s.jobs <==> r in s'.jobs) && (r in s.jobs ==> s'.jobs[r].booking == s.jobs[r].booking)
    case Stand(q) =>
      (q in s.standing <==> q in s'.standing) && (q in s.standing ==> s'.standing[q] == s.standing[q])
  }

  lemma OthersStepLeaves(s: State, a: Action, caller: Caller)
    requires Enabled(s, a) && !By(a, caller)
    ensures Untouched(s, caller, Apply(s, a))
  {
  }

  lemma {:induction false} OthersRunLeaves(states: seq<State>, acts: seq<Action>, caller: Caller, i: nat)
    requires RunOfOthers(states, acts, caller) && i <= |acts|
    ensures Untouched(states[0], caller, states[i])
  {
    if i > 0 {
      OthersRunLeaves(states, acts, caller, i - 1);
      assert StepAt(states, acts, i - 1);
      OthersStepLeaves(states[i - 1], acts[i - 1], caller);
    }
  }

  lemma RunsJoin(xs: seq<State>, bs: seq<Action>, ys: seq<State>, cs: seq<Action>)
    requires Run(xs, bs) && Run(ys, cs) && xs[|bs|] == ys[0]
    ensures Run(xs + ys[1..], bs + cs) && (xs + ys[1..])[|bs| + |cs|] == ys[|cs|]
  {
    var states, acts := xs + ys[1..], bs + cs;
    forall i: nat | i < |acts| ensures StepAt(states, acts, i) {
      if i < |bs| {
        assert StepAt(xs, bs, i);
      } else {
        assert StepAt(ys, cs, i - |bs|);
      }
    }
  }

  // ---- What a history shows about a call ----

  /** What a step of one call tells about the state it was taken in. A call's id is its own, so a fact about
      it is a fact about this very call. */
  datatype Fact =
    | LockHeld(r: nat, t: Id)
    | FlagSeen(r: nat, t: Id, up: bool)
    | RowSeen(r: nat, t: Id, row: Option<TicketRow>)
    | FlagRaised(r: nat)
    | FlagDropped(r: nat)
    | JobAdded(r: nat)
    | EventHeld(q: nat, e: Id)
    | Unconnected(q: nat, e: Id, u: Id, id: Id)
    | NoneFree(q: nat, e: Id)
    | CommitRefused(q: nat, e: Id, u: Id, id: Id)
    | SaleMade(q: nat, e: Id, bought: Id, id: Id, reported: bool)

  predicate Shows(s: State, a: Action, fact: Fact) {
    match fact
    case LockHeld(r, t) =>
      a == Seating(r, Fault(false)) && At(s.calls, r, Arrived) && t in s.leases && s.now < s.leases[t].until
    case FlagSeen(r, t, up) => a == Seating(r, CallStep.ReadFlag) && (up <==> t in s.flags && s.now < s.flags[t])
    case RowSeen(r, t, row) =>
      && a == Seating(r, CallStep.ReadRow)
      && (match row case None => t !in s.db.tickets case Some(stored) => t in s.db.tickets && s.db.tickets[t] == stored)
    case FlagRaised(r) => a == Seating(r, CallStep.WriteFlag)
    case FlagDropped(r) => a == Seating(r, CallStep.Compensate)
    case JobAdded(r) => a == Seating(r, Enqueue)
    case EventHeld(q, e) =>
      && a == Standing(q, FaultStanding) && AtStanding(s.standing, q, StandingArrived)
      && e in s.eventLeases && s.now < s.eventLeases[e].until
    case Unconnected(q, e, u, id) =>
      && a == Standing(q, FaultStanding) && AtStanding(s.standing, q, Finding)
      && !Connects(s.db, e, u, id)
    case NoneFree(q, e) =>
      a == Standing(q, FindTicket(None)) && (forall t | t in s.db.tickets && s.db.tickets[t].eventId == e :: !s.db.tickets[t].isAvailable)
    case CommitRefused(q, e, u, id) =>
      && a == Standing(q, FaultStanding) && AtStanding(s.standing, q, Finding)
      && Connects(s.db, e, u, id)
      && (exists t :: t in s.db.tickets && s.db.tickets[t].eventId == e && s.db.tickets[t].isAvailable)
    case SaleMade(q, e, t, id, reported) =>
      && a == Standing(q, CommitSale(id, reported))
      && t in s.db.tickets && s.db.tickets[t].eventId == e && s.db.tickets[t].isAvailable
  }

  /** Event and user exist, and the reservation id is fresh. */
  predicate Connects(db: Db, e: Id, u: Id, id: Id) {
    e in db.events && u in db.users && id !in db.reservations
  }

  predicate ShownAt(states: seq<State>, acts: seq<Action>, k: nat, fact: Fact) {
    k < |states| && k < |acts| && Shows(states[k], acts[k], fact)
  }

  /** Some step of the history shows the fact. */
  ghost predicate Shown(states: seq<State>, acts: seq<Action>, fact: Fact) {
    exists k: nat :: ShownAt(states, acts, k, fact)
  }

  /** What has been shown stays shown. */
  lemma ShownStays(xs: seq<State>, bs: seq<Action>, states: seq<State>, acts: seq<Action>, fact: Fact)
    requires xs <= states && bs <= acts && Shown(xs, bs, fact)
    ensures Shown(states, acts, fact)
  {
    var k: nat :| ShownAt(xs, bs, k, fact);
    assert states[k] == xs[k] && acts[k] == bs[k];
    assert ShownAt(states, acts, k, fact);
  }

  /** No call has come in yet: nothing is locked and nothing is queued. The tables may hold anything. */
  ghost predicate Unused(s: State) {
    && s.leases == map[] && s.eventLeases == map[] && s.calls == map[] && s.standing == map[] && s.jobs == map[]
    && s.schedule.wait == [] && s.schedule.delayed == map[] && s.schedule.active == map[]
  }

  lemma {:induction false} ScheduleInHistory(states: seq<State>, acts: seq<Action>, i: nat)
    requires Run(states, acts) && Unused(states[0]) && i <= |acts|
    ensures ScheduleInv(states[i].jobs, states[i].schedule)
  {
    if i > 0 {
      var k := i - 1;
      ScheduleInHistory(states, acts, k);
      assert StepAt(states, acts, k);
      StepKeepsSchedule(states[k], acts[k]);
    }
  }

  /** The stores every application instance shares, and the protocol state they represent. */
  class Platform {
    const cache: CacheManager
    const prisma: PrismaService
    const queue: ReservationQueue
    const locks: LockServer
    var now: nat
    ghost var model: State
    ghost var states: seq<State>
    ghost var acts: seq<Action>

    /** The stores are the model's. */
    ghost predicate Represents()
      reads this, cache, prisma, queue, locks
    {
      && model.now == now
      && model.leases == locks.leases && model.eventLeases == locks.eventLeases
      && model.jobs == queue.jobs && model.schedule == queue.schedule
      && model.db == prisma.Rows()
      && HoldsFlags(cache.entries, model.flags)
    }

    /** The history is a run of the protocol, from unused stores, that ends in the model. */
    ghost predicate HistoryIsRun()
      reads this
    {
      Run(states, acts) && Unused(states[0]) && states[|acts|] == model
    }

    ghost predicate Valid()
      reads this, cache, prisma, queue, locks
    {
      Represents() && HistoryIsRun()
    }

    constructor (cache: CacheManager, prisma: PrismaService, queue: ReservationQueue, locks: LockServer, now: nat,
                 workers: nat)
      requires cache.entries == map[] && locks.leases == map[] && locks.eventLeases == map[]
      requires queue.jobs == map[] && queue.schedule == Schedule([], map[], map[], now, now, workers)
      ensures Valid() && this.cache == cache && this.prisma == prisma && this.queue == queue && this.locks == locks
      ensures model == State(now, map[], map[], map[], map[], queue.schedule, map[], map[], prisma.Rows(), 0)
    {
      this.cache, this.prisma, this.queue, this.locks, this.now := cache, prisma, queue, locks, now;
      var start := State(now, map[], map[], map[], map[], queue.schedule, map[], map[], prisma.Rows(), 0);
      this.model, this.states, this.acts := start, [start], [];
    }

    /** The call `r` is at phase `p`, has no job, and asks for booking `b`. */
    ghost predicate AtPhase(r: nat, p: Phase, b: Booking)
      reads this
    {
      At(model.calls, r, p) && model.calls[r].booking == b && r !in model.jobs
    }

    /** The standing call `q` is at phase `p`, asks for what `c` asks for, and has bought what `c` has. */
    ghost predicate StandsAt(q: nat, p: StandingPhase, c: StandingCall)
      reads this
    {
      q in model.standing && model.standing[q] == c.(phase := p, lockedAt := model.standing[q].lockedAt)
    }

    /** Everything that a call or an attempt may change. */
    ghost function Repr(): set<object> {
      {this, cache, prisma, queue, locks}
    }

    /** The history has gone on since it was `states0` and `acts0`. */
    ghost predicate GrewFrom(states0: seq<State>, acts0: seq<Action>)
      reads this, cache, prisma, queue, locks
    {
      Valid() && states0 <= states && acts0 <= acts
    }

    /** The others' turn: any number of their steps. Callers know no more than this contract. */
    method Others(ghost caller: Caller)
      requires Valid()
      modifies Repr()
      ensures Represents() && OthersLead(old(model), caller, model)
      ensures states == old(states) && acts == old(acts)
    {
      assert RunOfOthers([model], [], caller) && [model][0] == model;
    }

    /** An await of `caller`. */
    method Await(ghost caller: Caller)
      requires Valid()
      modifies Repr()
      ensures GrewFrom(old(states), old(acts))
      ensures Untouched(old(model), caller, model)
    {
      Others(caller);
      ghost var xs, bs :| RunOfOthers(xs, bs, caller) && xs[0] == old(model) && xs[|bs|] == model;
      OthersRunLeaves(xs, bs, caller, |bs|);
      RunsJoin(states, acts, xs, bs);
      states, acts := states + xs[1..], acts + bs;
    }

    /** Records that the stores have taken one step of the protocol. */
    ghost method Took(a: Action)
      requires HistoryIsRun() && Enabled(model, a)
      modifies this`model, this`states, this`acts
      ensures model == Apply(old(model), a) && HistoryIsRun()
      ensures states == old(states) + [model] && acts == old(acts) + [a]
    {
      RunGrows(states, acts, a);
      model := Apply(model, a);
      states, acts := states + [model], acts + [a];
    }

    /** The same, for a step that shows a fact. */
    ghost method Showed(a: Action, fact: Fact)
      requires HistoryIsRun() && Enabled(model, a) && Shows(model, a, fact)
      modifies this`model, this`states, this`acts
      ensures model == Apply(old(model), a) && HistoryIsRun()
      ensures old(states) <= states && old(acts) <= acts
      ensures Shown(states, acts, fact)
    {
      Took(a);
      assert ShownAt(states, acts, |old(acts)|, fact);
    }
  }
}
