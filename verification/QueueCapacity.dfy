/** With one start per second, three attempts, one stall and a second's backoff, every claim is settled by a
    deadline linear in the number of tickets on sale, however many workers there are. When that deadline fits
    the flag's lifetime, the run keeps its timing windows by itself. */
module QueueCapacity {
  import opened Durations
  import opened Tables
  import opened SaleProtocol
  import opened SaleInvariant
  import opened SeatingSteps
  import opened WorkerSteps
  import opened SaleRuns
  import opened SaleTheorems

  /** How late things may get: a start that is due while a worker is idle, or a backed-off job that is ready,
      waits at most `lag`; an attempt takes at most `attempt`, until the queue notices when it stalls; a call
      spends less than `enqueue` between its flag and the end of its enqueue or compensation; at most
      `tickets` seats are on sale and `repeats` committed jobs wait to be tried again; and jobs stall only if
      `mayStall`, each then once, which is all the queue allows. */
  datatype Pace = Pace(lag: nat, attempt: nat, enqueue: nat, tickets: nat, repeats: nat, mayStall: bool)

  // ---- The workers keep up ----

  /** The available tickets of SEATING events; sold tickets and standing places do not count. */
  function OnSale(db: Db): set<Id> {
    set t | t in db.tickets && db.tickets[t].isAvailable
            && db.tickets[t].eventId in db.events && db.events[db.tickets[t].eventId].SEATING?
  }

  /** Jobs that have committed and are still to be tried again. */
  function Repeated(jobs: map<nat, Job>): set<nat> {
    set r | r in jobs && jobs[r].status.Queued? && jobs[r].committed
  }

  predicate KeepsUp(now: nat, q: Schedule, p: Pace) {
    && (q.wait != [] && WorkerIdle(q) ==> now <= q.due + p.lag)
    && (forall r | r in q.active :: now <= q.active[r] + p.attempt)
    && (forall r | r in q.delayed :: now <= q.delayed[r] + p.lag)
  }

  ghost predicate StallsWithin(jobs: map<nat, Job>, p: Pace) {
    !p.mayStall ==> forall r | r in jobs && jobs[r].status.Queued? :: jobs[r].stallsLeft == MAX_STALLS
  }

  ghost predicate EnqueuesWithin(calls: map<nat, Call>, now: nat, e: nat) {
    forall r | r in calls && (calls[r].phase.Enqueueing? || calls[r].phase.Compensating?) :: now < calls[r].flaggedAt + e
  }

  ghost predicate PromptState(s: State, p: Pace) {
    && KeepsUp(s.now, s.schedule, p)
    && EnqueuesWithin(s.calls, s.now, p.enqueue)
    && |OnSale(s.db)| <= p.tickets && |Repeated(s.jobs)| <= p.repeats
    && StallsWithin(s.jobs, p)
  }

  ghost predicate PromptAt(states: seq<State>, acts: seq<Action>, p: Pace, i: nat) {
    && i < |states| && PromptState(states[i], p)
    && (i < |acts| && Enabled(states[i], acts[i]) ==> WritesWithin(states[i], acts[i], LEASE, LEASE))
  }

  /** A run in which nobody is later than `p` allows: nothing is assumed about how old claims get. */
  ghost predicate PromptRun(states: seq<State>, acts: seq<Action>, p: Pace) {
    && Run(states, acts)
    && Init(states[0])
    && (forall i: nat | i <= |acts| :: PromptAt(states, acts, p, i))
  }

  // ---- The schedule's clock ----

  /** The next start is never more than a second away, and a second after the last one. */
  ghost predicate ClockInv(now: nat, q: Schedule) {
    && q.nextStart <= now + LIMITER_DURATION
    && (q.wait != [] ==> q.due <= now + LIMITER_DURATION)
    && (forall r | r in q.active :: q.active[r] + LIMITER_DURATION <= q.nextStart)
    && q.workers >= 1
  }

  // ---- Deadlines ----

  /** The longest time between two starts: an attempt or the limiter, whichever is longer, and the lag. */
  function Slot(p: Pace): nat { Max(LIMITER_DURATION, p.attempt) + p.lag }

  /** The time that `n` starts take. */
  function Starts(n: nat, p: Pace): nat {
    if n == 0 then 0 else Starts(n - 1, p) + Slot(p)
  }

  /** How many jobs can be in the queue at once, and how many starts they can need ahead of one of them. */
  function Room(p: Pace): nat { p.tickets + p.repeats }
  function Load(p: Pace): nat { if p.mayStall then Room(p) + Room(p) else Room(p) }

  /** A whole further attempt: backoff or return, promotion, wait, attempt. */
  function Lap(p: Pace): nat { Starts(Load(p) + 2, p) }

  function Laps(n: nat, p: Pace): nat {
    if n == 0 then 0 else Laps(n - 1, p) + Lap(p)
  }

  /** How long after its flag a claim can take, enqueue included. */
  function Bound(p: Pace): nat {
    p.enqueue + Starts(if p.mayStall then 8 * Room(p) + 7 else 3 * Room(p) + 5, p)
  }

  /** The job may stall once more. */
  predicate CanStall(jobs: map<nat, Job>, r: nat, p: Pace) {
    p.mayStall && r in jobs && jobs[r].stallsLeft > 0
  }

  /** The attempts that may follow the job's next or present one. */
  function Tries(jobs: map<nat, Job>, r: nat, p: Pace): nat {
    (if r in jobs && jobs[r].attemptsLeft >= 1 then jobs[r].attemptsLeft - 1 else 0)
    + (if CanStall(jobs, r, p) then 1 else 0)
  }

  function Elements(xs: seq<nat>): set<nat> {
    set x | x in xs
  }

  /** Jobs that may still stall and return to the front, ahead of place `k` of the wait list. */
  function Ahead(jobs: map<nat, Job>, q: Schedule, k: nat, p: Pace): set<nat>
    requires k <= |q.wait|
  {
    set r | r in Elements(q.wait[..k]) + q.active.Keys && CanStall(jobs, r, p)
  }

  /** How many starts there can be before that of the job at place `k`. */
  function Places(jobs: map<nat, Job>, q: Schedule, k: nat, p: Pace): nat
    requires k <= |q.wait|
  {
    k + |Ahead(jobs, q, k, p)|
  }

  /** When the head of the wait list may start at the latest. */
  function HeadBy(q: Schedule, p: Pace): int {
    if WorkerIdle(q) then q.due else Max(q.due, q.nextStart - LIMITER_DURATION + p.attempt)
  }

  function WaitDeadline(head: int, places: nat, tries: nat, p: Pace): int {
    head + p.lag + Starts(places, p) + p.attempt + Laps(tries, p)
  }

  function ActiveDeadline(start: nat, tries: nat, p: Pace): int {
    start + p.attempt + Laps(tries, p)
  }

  function DelayedDeadline(ready: nat, tries: nat, p: Pace): int {
    ready + p.lag + Starts(Load(p), p) + p.attempt + Laps(tries, p)
  }

  /** The claim of job `r` is settled, or will be in time if it is by `deadline`. */
  predicate InTime(calls: map<nat, Call>, jobs: map<nat, Job>, r: nat, deadline: int, p: Pace) {
    || (r in jobs && jobs[r].committed)
    || (r in calls && deadline < calls[r].flaggedAt + Bound(p))
  }

  predicate PlaceInTime(calls: map<nat, Call>, jobs: map<nat, Job>, q: Schedule, p: Pace, k: nat)
    requires k < |q.wait|
  {
    InTime(calls, jobs, q.wait[k], WaitDeadline(HeadBy(q, p), Places(jobs, q, k, p), Tries(jobs, q.wait[k], p), p), p)
  }

  predicate WaitInTime(calls: map<nat, Call>, jobs: map<nat, Job>, q: Schedule, p: Pace, k: nat) {
    k < |q.wait| ==> PlaceInTime(calls, jobs, q, p, k)
  }

  predicate ActiveInTime(calls: map<nat, Call>, jobs: map<nat, Job>, q: Schedule, p: Pace, r: nat) {
    r in q.active ==> InTime(calls, jobs, r, ActiveDeadline(q.active[r], Tries(jobs, r, p), p), p)
  }

  predicate DelayedInTime(calls: map<nat, Call>, jobs: map<nat, Job>, q: Schedule, p: Pace, r: nat) {
    r in q.delayed ==> InTime(calls, jobs, r, DelayedDeadline(q.delayed[r], Tries(jobs, r, p), p), p)
  }

  /** Every scheduled claim's deadline is within the bound of its flag. */
  ghost predicate DeadlinesInv(calls: map<nat, Call>, jobs: map<nat, Job>, q: Schedule, p: Pace) {
    && (forall k: nat :: WaitInTime(calls, jobs, q, p, k))
    && (forall r: nat :: ActiveInTime(calls, jobs, q, p, r))
    && (forall r: nat :: DelayedInTime(calls, jobs, q, p, r))
  }

  // ---- The arithmetic of one step ----

  lemma {:induction false} StartsAdd(m: nat, n: nat, p: Pace)
    ensures Starts(m + n, p) == Starts(m, p) + Starts(n, p)
  {
    if n > 0 {
      StartsAdd(m, n - 1, p);
    }
  }

  lemma StartsMonotone(m: nat, n: nat, p: Pace)
    requires m <= n
    ensures Starts(m, p) <= Starts(n, p)
  {
    StartsAdd(m, n - m, p);
  }

  /** In closed form: the number of starts times the slot. */
  lemma {:induction false} StartsAre(n: nat, p: Pace)
    ensures Starts(n, p) == n * Slot(p)
  {
    if n > 0 {
      StartsAre(n - 1, p);
      assert n * Slot(p) == (n - 1) * Slot(p) + Slot(p);
    }
  }

  lemma BoundIs(p: Pace)
    ensures Bound(p) == p.enqueue + (if p.mayStall then 8 * Room(p) + 7 else 3 * Room(p) + 5) * Slot(p)
  {
    StartsAre(if p.mayStall then 8 * Room(p) + 7 else 3 * Room(p) + 5, p);
  }

  lemma LapIs(p: Pace)
    ensures Lap(p) == Starts(Load(p), p) + Slot(p) + Slot(p)
  {
    StartsAdd(Load(p), 2, p);
    assert Starts(2, p) == Starts(1, p) + Slot(p) && Starts(1, p) == Starts(0, p) + Slot(p);
  }

  lemma {:induction false} LapsAre(n: nat, p: Pace)
    ensures Laps(n, p) == Starts(n * (Load(p) + 2), p)
  {
    if n > 0 {
      LapsAre(n - 1, p);
      StartsAdd((n - 1) * (Load(p) + 2), Load(p) + 2, p);
      assert n * (Load(p) + 2) == (n - 1) * (Load(p) + 2) + (Load(p) + 2);
    }
  }

  lemma LapsMonotone(m: nat, n: nat, p: Pace)
    requires m <= n <= m + 3
    ensures Laps(m, p) <= Laps(n, p)
  {
  }

  /** From the end of the wait list, a whole lap at most to the end of the next attempt. */
  lemma PlaceDeadline(now: nat, head: int, places: nat, tries: nat, p: Pace)
    requires head + p.lag <= now + Slot(p) && places + 1 <= Load(p)
    ensures WaitDeadline(head, places, tries, p) <= now + Starts(Load(p), p) + p.attempt + Laps(tries, p)
  {
    StartsMonotone(places + 1, Load(p), p);
  }

  lemma EnqueueDeadline(now: nat, head: int, places: nat, tries: nat, p: Pace)
    requires head + p.lag <= now + Slot(p) && places + 1 <= Load(p)
    requires tries <= (if p.mayStall then 3 else 2)
    ensures WaitDeadline(head, places, tries, p) + p.enqueue <= now + Bound(p)
  {
    var most := if p.mayStall then 3 else 2;
    PlaceDeadline(now, head, places, tries, p);
    LapsMonotone(tries, most, p);
    LapsAre(most, p);
    StartsAdd(Load(p) + 1, most * (Load(p) + 2), p);
  }

  lemma PromoteDeadline(now: nat, head: int, places: nat, ready: nat, tries: nat, p: Pace)
    requires head + p.lag <= now + Slot(p) && places + 1 <= Load(p) && now <= ready + p.lag
    ensures WaitDeadline(head, places, tries, p) <= DelayedDeadline(ready, tries, p)
  {
    PlaceDeadline(now, head, places, tries, p);
  }

  lemma FailDeadline(now: nat, start: nat, tries: nat, p: Pace)
    requires now <= start + p.attempt
    ensures DelayedDeadline(now + BACKOFF, tries, p) <= ActiveDeadline(start, tries + 1, p)
  {
    LapIs(p);
  }

  lemma ReturnDeadline(now: nat, start: nat, head: int, places: nat, tries: nat, p: Pace)
    requires now <= start + p.attempt && head + p.lag <= now + Slot(p) && places + 1 <= Load(p)
    ensures WaitDeadline(head, places, tries, p) <= ActiveDeadline(start, tries + 1, p)
  {
    PlaceDeadline(now, head, places, tries, p);
    LapIs(p);
  }

  // ---- The queue fits the seats on sale ----

  lemma {:induction false} DistinctTicketsFit(calls: map<nat, Call>, ids: set<nat>, tickets: set<Id>)
    requires forall r | r in ids :: r in calls && TicketOf(calls, r) in tickets
    requires forall q, r | q in ids && r in ids :: TicketOf(calls, q) == TicketOf(calls, r) ==> q == r
    ensures |ids| <= |tickets|
  {
    if ids != {} {
      var r :| r in ids;
      var t := TicketOf(calls, r);
      forall q | q in ids - {r} ensures q in calls && TicketOf(calls, q) in tickets - {t} {}
      DistinctTicketsFit(calls, ids - {r}, tickets - {t});
    }
  }

  /** The seat of an open claim is on sale. */
  lemma ClaimedIsOnSale(s: State, r: nat)
    requires SeatingInv(s.now, s.leases, s.flags, s.calls, s.jobs, s.db) && Unsettled(s.calls, s.jobs, r)
    ensures Staked(s.calls, s.jobs, r) && TicketOf(s.calls, r) in OnSale(s.db)
  {
  }

  /** Open claims are for different seats on sale. */
  lemma ClaimsFit(s: State, ids: set<nat>)
    requires SeatingInv(s.now, s.leases, s.flags, s.calls, s.jobs, s.db)
    requires forall r | r in ids :: Unsettled(s.calls, s.jobs, r)
    ensures |ids| <= |OnSale(s.db)|
  {
    forall r | r in ids ensures Staked(s.calls, s.jobs, r) && TicketOf(s.calls, r) in OnSale(s.db) {
      ClaimedIsOnSale(s, r);
    }
    DistinctTicketsFit(s.calls, ids, OnSale(s.db));
  }

  /** Jobs in the queue are open claims or have committed. */
  lemma JobsFit(s: State, ids: set<nat>, p: Pace)
    requires SeatingInv(s.now, s.leases, s.flags, s.calls, s.jobs, s.db)
    requires |OnSale(s.db)| <= p.tickets && |Repeated(s.jobs)| <= p.repeats
    requires forall r | r in ids :: Unsettled(s.calls, s.jobs, r) || r in Repeated(s.jobs)
    ensures |ids| <= Room(p)
  {
    var again := Repeated(s.jobs);
    var claims := ids - again;
    ClaimsFit(s, claims);
    SubsetSize(ids * again, again);
    SplitSize(ids, again);
  }

  lemma SplitSize(a: set<nat>, b: set<nat>)
    ensures |a| == |a - b| + |a * b|
  {
    assert a == (a - b) + a * b;
  }

  lemma {:induction false} DistinctSize(xs: seq<nat>)
    requires forall i, j | 0 <= i < j < |xs| :: xs[i] != xs[j]
    ensures |Elements(xs)| == |xs|
  {
    if xs != [] {
      var n := |xs| - 1;
      DistinctSize(xs[..n]);
      LastElement(xs);
      assert xs[n] !in Elements(xs[..n]);
    }
  }

  lemma LastElement(xs: seq<nat>)
    requires xs != []
    ensures Elements(xs) == Elements(xs[..|xs| - 1]) + {xs[|xs| - 1]}
  {
    assert xs == xs[..|xs| - 1] + [xs[|xs| - 1]];
  }

  /** The jobs that wait or are in progress. */
  function Started(q: Schedule): set<nat> {
    Elements(q.wait) + q.active.Keys
  }

  lemma ScheduledIsClaimOrRepeat(s: State, r: nat)
    requires JobsInv(s.now, s.calls, s.jobs) && ScheduleInv(s.jobs, s.schedule) && Scheduled(s.schedule, r)
    ensures Unsettled(s.calls, s.jobs, r) || r in Repeated(s.jobs)
  {
  }

  /** With another job `r`, the waiting and started jobs still fit. */
  lemma QueueFits(s: State, r: nat, p: Pace)
    requires Inv(s) && PromptState(s, p) && r !in Started(s.schedule)
    requires Unsettled(s.calls, s.jobs, r) || r in Repeated(s.jobs)
    ensures |Started(s.schedule)| + 1 <= Room(p)
  {
    var ids := Started(s.schedule) + {r};
    forall x | x in ids ensures Unsettled(s.calls, s.jobs, x) || x in Repeated(s.jobs) {
      if x != r {
        assert Scheduled(s.schedule, x);
        ScheduledIsClaimOrRepeat(s, x);
      }
    }
    JobsFit(s, ids, p);
  }

  /** Whoever stays behind all the waiting and started jobs stays within the load. */
  lemma PlacesFit(jobs: map<nat, Job>, q: Schedule, k: nat, p: Pace)
    requires k <= |q.wait| && (forall i, j | 0 <= i < j < |q.wait| :: q.wait[i] != q.wait[j])
    requires |Started(q)| + 1 <= Room(p)
    ensures Places(jobs, q, k, p) + 1 <= Load(p)
  {
    DistinctSize(q.wait);
    SubsetSize(Elements(q.wait), Started(q));
    AheadStarted(jobs, q, k, p);
    SubsetSize(Ahead(jobs, q, k, p), Started(q));
    if !p.mayStall {
      assert Ahead(jobs, q, k, p) == {};
    }
  }

  lemma AheadStarted(jobs: map<nat, Job>, q: Schedule, k: nat, p: Pace)
    requires k <= |q.wait|
    ensures Ahead(jobs, q, k, p) <= Started(q)
  {
    forall r | r in q.wait[..k] ensures r in q.wait {}
  }

  // ---- What leaves the deadlines alone ----

  /** However busy the workers are, the head of the wait list may start within one attempt or limiter. */
  lemma HeadIsNear(now: nat, q: Schedule, r: nat, p: Pace)
    requires ClockInv(now, q)
    ensures HeadBy(Push(q, r, now), p) + p.lag <= now + Slot(p)
    ensures HeadBy(PushFront(q, r, now), p) + p.lag <= now + Slot(p)
  {
  }

  /** Calls and jobs look the same to the deadline of job `r`. */
  predicate SameJob(calls: map<nat, Call>, jobs: map<nat, Job>, calls': map<nat, Call>, jobs': map<nat, Job>, r: nat) {
    && (r in calls ==> r in calls' && calls'[r].flaggedAt == calls[r].flaggedAt)
    && (r in jobs <==> r in jobs')
    && (r in jobs ==>
          && jobs'[r].attemptsLeft == jobs[r].attemptsLeft && jobs'[r].stallsLeft == jobs[r].stallsLeft
          && (jobs[r].committed ==> jobs'[r].committed))
  }

  /** A waiting job keeps its deadline where the head and the places ahead take no longer. */
  lemma WaitKept(calls: map<nat, Call>, jobs: map<nat, Job>, q: Schedule, k: nat, places: nat,
                 calls': map<nat, Call>, jobs': map<nat, Job>, q': Schedule, k': nat, places': nat, p: Pace)
    requires k < |q.wait| && k' < |q'.wait| && q'.wait[k'] == q.wait[k]
    requires SameJob(calls, jobs, calls', jobs', q.wait[k]) && PlaceInTime(calls, jobs, q, p, k)
    requires places == Places(jobs, q, k, p) && places' == Places(jobs', q', k', p)
    requires HeadBy(q', p) + Starts(places', p) <= HeadBy(q, p) + Starts(places, p)
    ensures PlaceInTime(calls', jobs', q', p, k')
  {
    DeadlineKept(calls, jobs, calls', jobs', q.wait[k], HeadBy(q, p), places, HeadBy(q', p), places', p);
  }

  lemma DeadlineKept(calls: map<nat, Call>, jobs: map<nat, Job>, calls': map<nat, Call>, jobs': map<nat, Job>,
                     r: nat, head: int, places: nat, head': int, places': nat, p: Pace)
    requires SameJob(calls, jobs, calls', jobs', r)
    requires InTime(calls, jobs, r, WaitDeadline(head, places, Tries(jobs, r, p), p), p)
    requires head' + Starts(places', p) <= head + Starts(places, p)
    ensures InTime(calls', jobs', r, WaitDeadline(head', places', Tries(jobs', r, p), p), p)
  {
    assert Tries(jobs', r, p) == Tries(jobs, r, p);
  }

  lemma ActiveKept(calls: map<nat, Call>, jobs: map<nat, Job>, q: Schedule,
                   calls': map<nat, Call>, jobs': map<nat, Job>, q': Schedule, r: nat, p: Pace)
    requires r in q'.active ==> r in q.active && q'.active[r] == q.active[r] && SameJob(calls, jobs, calls', jobs', r)
    requires ActiveInTime(calls, jobs, q, p, r)
    ensures ActiveInTime(calls', jobs', q', p, r)
  {
  }

  lemma DelayedKept(calls: map<nat, Call>, jobs: map<nat, Job>, q: Schedule,
                    calls': map<nat, Call>, jobs': map<nat, Job>, q': Schedule, r: nat, p: Pace)
    requires r in q'.delayed ==> r in q.delayed && q'.delayed[r] == q.delayed[r] && SameJob(calls, jobs, calls', jobs', r)
    requires DelayedInTime(calls, jobs, q, p, r)
    ensures DelayedInTime(calls', jobs', q', p, r)
  {
  }

  /** The jobs in progress and backed off keep their deadlines where they are the same, or fewer. */
  lemma OthersKept(calls: map<nat, Call>, jobs: map<nat, Job>, q: Schedule,
                   calls': map<nat, Call>, jobs': map<nat, Job>, q': Schedule, p: Pace)
    requires DeadlinesInv(calls, jobs, q, p)
    requires forall r | r in q'.active :: r in q.active && q'.active[r] == q.active[r] && SameJob(calls, jobs, calls', jobs', r)
    requires forall r | r in q'.delayed :: r in q.delayed && q'.delayed[r] == q.delayed[r] && SameJob(calls, jobs, calls', jobs', r)
    ensures forall r: nat :: ActiveInTime(calls', jobs', q', p, r)
    ensures forall r: nat :: DelayedInTime(calls', jobs', q', p, r)
  {
    forall r: nat ensures ActiveInTime(calls', jobs', q', p, r) {
      assert ActiveInTime(calls, jobs, q, p, r);
      ActiveKept(calls, jobs, q, calls', jobs', q', r, p);
    }
    forall r: nat ensures DelayedInTime(calls', jobs', q', p, r) {
      assert DelayedInTime(calls, jobs, q, p, r);
      DelayedKept(calls, jobs, q, calls', jobs', q', r, p);
    }
  }

  lemma SameAhead(jobs: map<nat, Job>, jobs': map<nat, Job>, q: Schedule, k: nat, p: Pace)
    requires k <= |q.wait| && (forall r | r in Started(q) :: CanStall(jobs', r, p) <==> CanStall(jobs, r, p))
    ensures Ahead(jobs', q, k, p) == Ahead(jobs, q, k, p)
  {
    AheadStarted(jobs, q, k, p);
    AheadStarted(jobs', q, k, p);
  }

  lemma SameWaitAt(calls: map<nat, Call>, jobs: map<nat, Job>, calls': map<nat, Call>, jobs': map<nat, Job>,
                   q: Schedule, k: nat, p: Pace)
    requires WaitInTime(calls, jobs, q, p, k) && (forall r | r in Started(q) :: CanStall(jobs', r, p) <==> CanStall(jobs, r, p))
    requires k < |q.wait| ==> SameJob(calls, jobs, calls', jobs', q.wait[k])
    ensures WaitInTime(calls', jobs', q, p, k)
  {
    if k < |q.wait| {
      SameAhead(jobs, jobs', q, k, p);
      var places := Places(jobs, q, k, p);
      WaitKept(calls, jobs, q, k, places, calls', jobs', q, k, places, p);
    }
  }

  /** Deadlines depend on the flags and the tries left of the scheduled jobs only. */
  lemma SameDeadlines(calls: map<nat, Call>, jobs: map<nat, Job>, calls': map<nat, Call>, jobs': map<nat, Job>,
                      q: Schedule, p: Pace)
    requires DeadlinesInv(calls, jobs, q, p)
    requires forall r | Scheduled(q, r) :: SameJob(calls, jobs, calls', jobs', r)
    ensures DeadlinesInv(calls', jobs', q, p)
  {
    forall r | r in Started(q) ensures CanStall(jobs', r, p) <==> CanStall(jobs, r, p) {
      assert Scheduled(q, r);
    }
    forall k: nat ensures WaitInTime(calls', jobs', q, p, k) {
      assert WaitInTime(calls, jobs, q, p, k);
      assert k < |q.wait| ==> Scheduled(q, q.wait[k]);
      SameWaitAt(calls, jobs, calls', jobs', q, k, p);
    }
    forall r | r in q.active ensures Scheduled(q, r) {}
    forall r | r in q.delayed ensures Scheduled(q, r) {}
    OthersKept(calls, jobs, q, calls', jobs', q, p);
  }

  /** The end of an attempt brings the head no later. */
  lemma FinishedHead(now: nat, q: Schedule, r: nat, p: Pace)
    requires r in q.active && KeepsUp(now, q, p) && ClockInv(now, q)
    ensures HeadBy(Finished(q, r, now), p) <= HeadBy(q, p)
  {
    assert |q.active - {r}| == |q.active| - 1 by {
      assert (q.active - {r}).Keys == q.active.Keys - {r};
      assert |q.active| == |q.active.Keys| && |q.active - {r}| == |(q.active - {r}).Keys|;
    }
  }

  lemma FinishedAhead(jobs: map<nat, Job>, q: Schedule, r: nat, now: nat, k: nat, p: Pace)
    requires k <= |q.wait|
    ensures Places(jobs, Finished(q, r, now), k, p) <= Places(jobs, q, k, p)
  {
    SubsetSize(Ahead(jobs, Finished(q, r, now), k, p), Ahead(jobs, q, k, p));
  }

  lemma Itself(calls: map<nat, Call>, jobs: map<nat, Job>)
    ensures forall r :: SameJob(calls, jobs, calls, jobs, r)
  {
  }

  /** A place no later, and with no more places ahead. */
  lemma SoonerPlace(calls: map<nat, Call>, jobs: map<nat, Job>, q: Schedule, q': Schedule, k: nat, p: Pace)
    requires k < |q.wait| && k < |q'.wait| && q'.wait[k] == q.wait[k]
    requires HeadBy(q', p) <= HeadBy(q, p) && Places(jobs, q', k, p) <= Places(jobs, q, k, p)
    requires PlaceInTime(calls, jobs, q, p, k)
    ensures PlaceInTime(calls, jobs, q', p, k)
  {
    var places, places' := Places(jobs, q, k, p), Places(jobs, q', k, p);
    StartsMonotone(places', places, p);
    WaitKept(calls, jobs, q, k, places, calls, jobs, q', k, places', p);
  }

  /** The end of an attempt leaves the deadlines of the other jobs alone. */
  lemma FinishKeepsDeadlines(now: nat, calls: map<nat, Call>, jobs: map<nat, Job>, q: Schedule, r: nat, p: Pace)
    requires r in q.active && KeepsUp(now, q, p) && ClockInv(now, q) && DeadlinesInv(calls, jobs, q, p)
    ensures DeadlinesInv(calls, jobs, Finished(q, r, now), p)
  {
    var q' := Finished(q, r, now);
    FinishedHead(now, q, r, p);
    forall k: nat ensures WaitInTime(calls, jobs, q', p, k) {
      assert WaitInTime(calls, jobs, q, p, k);
      if k < |q.wait| {
        FinishedAhead(jobs, q, r, now, k, p);
        SoonerPlace(calls, jobs, q, q', k, p);
      }
    }
    Itself(calls, jobs);
    OthersKept(calls, jobs, q, calls, jobs, q', p);
  }

  lemma SamePlaces(jobs: map<nat, Job>, q: Schedule, q': Schedule, k: nat, p: Pace)
    requires k <= |q.wait| && k <= |q'.wait| && q'.wait[..k] == q.wait[..k] && q'.active == q.active
    ensures Places(jobs, q', k, p) == Places(jobs, q, k, p)
  {
  }

  lemma LastPlace(calls: map<nat, Call>, jobs: map<nat, Job>, q: Schedule, q': Schedule, r: nat, p: Pace)
    requires q'.wait == q.wait + [r] && q'.active == q.active
    requires InTime(calls, jobs, r, WaitDeadline(HeadBy(q', p), Places(jobs, q, |q.wait|, p), Tries(jobs, r, p), p), p)
    ensures PlaceInTime(calls, jobs, q', p, |q.wait|)
  {
    assert q'.wait[..|q.wait|] == q.wait[..|q.wait|];
    SamePlaces(jobs, q, q', |q.wait|, p);
  }

  lemma PushedHead(q: Schedule, r: nat, now: nat, p: Pace)
    requires q.wait != []
    ensures HeadBy(Push(q, r, now), p) == HeadBy(q, p)
  {
  }

  /** A job joins the wait list. */
  lemma PushKeepsDeadlines(now: nat, calls: map<nat, Call>, jobs: map<nat, Job>, q: Schedule, r: nat, p: Pace)
    requires DeadlinesInv(calls, jobs, q, p)
    requires InTime(calls, jobs, r,
      WaitDeadline(HeadBy(Push(q, r, now), p), Places(jobs, q, |q.wait|, p), Tries(jobs, r, p), p), p)
    ensures DeadlinesInv(calls, jobs, Push(q, r, now), p)
  {
    var q' := Push(q, r, now);
    forall k: nat ensures WaitInTime(calls, jobs, q', p, k) {
      assert WaitInTime(calls, jobs, q, p, k);
      if k < |q.wait| {
        PushedHead(q, r, now, p);
        SamePlaces(jobs, q, q', k, p);
        SoonerPlace(calls, jobs, q, q', k, p);
      } else if k == |q.wait| {
        LastPlace(calls, jobs, q, q', r, p);
      }
    }
    Itself(calls, jobs);
    OthersKept(calls, jobs, q, calls, jobs, q', p);
  }

  lemma SameWait(calls: map<nat, Call>, jobs: map<nat, Job>, q: Schedule, q': Schedule, p: Pace)
    requires DeadlinesInv(calls, jobs, q, p)
    requires q'.wait == q.wait && q'.active == q.active && HeadBy(q', p) == HeadBy(q, p)
    ensures forall k: nat :: WaitInTime(calls, jobs, q', p, k)
  {
    forall k: nat ensures WaitInTime(calls, jobs, q', p, k) {
      assert WaitInTime(calls, jobs, q, p, k);
      if k < |q.wait| {
        SamePlaces(jobs, q, q', k, p);
        SoonerPlace(calls, jobs, q, q', k, p);
      }
    }
  }

  /** A job is backed off. */
  lemma DelayKeepsDeadlines(calls: map<nat, Call>, jobs: map<nat, Job>, q: Schedule, r: nat, ready: nat, p: Pace)
    requires DeadlinesInv(calls, jobs, q, p)
    requires InTime(calls, jobs, r, DelayedDeadline(ready, Tries(jobs, r, p), p), p)
    ensures DeadlinesInv(calls, jobs, q.(delayed := q.delayed[r := ready]), p)
  {
    var q' := q.(delayed := q.delayed[r := ready]);
    SameWait(calls, jobs, q, q', p);
    forall x: nat ensures ActiveInTime(calls, jobs, q', p, x) {
      assert ActiveInTime(calls, jobs, q, p, x);
    }
    forall x: nat ensures DelayedInTime(calls, jobs, q', p, x) {
      assert DelayedInTime(calls, jobs, q, p, x);
    }
  }

  /** A job leaves the backed-off ones. */
  lemma UndelayKeepsDeadlines(calls: map<nat, Call>, jobs: map<nat, Job>, q: Schedule, r: nat, p: Pace)
    requires DeadlinesInv(calls, jobs, q, p)
    ensures DeadlinesInv(calls, jobs, q.(delayed := q.delayed - {r}), p)
  {
    var q' := q.(delayed := q.delayed - {r});
    Itself(calls, jobs);
    SameWait(calls, jobs, q, q', p);
    OthersKept(calls, jobs, q, calls, jobs, q', p);
  }

  // ---- Steps keep the deadlines ----

  /** What a prompt run keeps besides the invariant. */
  ghost predicate OnTime(s: State, p: Pace) {
    && ClockInv(s.now, s.schedule)
    && StallsInv(s.jobs)
    && DeadlinesInv(s.calls, s.jobs, s.schedule, p)
  }

  ghost predicate StallsInv(jobs: map<nat, Job>) {
    forall r | r in jobs :: jobs[r].stallsLeft <= MAX_STALLS
  }

  /** A seating call changes neither flag times nor tries of the jobs in the schedule. */
  lemma CallKeepsScheduled(s: State, r: nat, step: CallStep)
    requires JobsInv(s.now, s.calls, s.jobs) && ScheduleInv(s.jobs, s.schedule)
    requires CallCan(s.now, s.leases, s.calls, s.jobs, s.db, r, step)
    ensures var s' := CallDoes(s, r, step);
      forall q | Scheduled(s.schedule, q) :: SameJob(s.calls, s.jobs, s'.calls, s'.jobs, q)
  {
  }

  /** A new job's deadline. */
  lemma EnqueueInTime(s: State, r: nat, p: Pace)
    requires Inv(s) && PromptState(s, p) && OnTime(s, p)
    requires At(s.calls, r, Enqueueing) && r !in s.jobs
    ensures var s' := CallDoes(s, r, Enqueue);
      InTime(s'.calls, s'.jobs, r, WaitDeadline(HeadBy(Push(s.schedule, r, s.now), p),
        Places(s'.jobs, s.schedule, |s.schedule.wait|, p), Tries(s'.jobs, r, p), p), p)
  {
    var jobs' := CallDoes(s, r, Enqueue).jobs;
    assert !Scheduled(s.schedule, r);
    QueueFits(s, r, p);
    PlacesFit(jobs', s.schedule, |s.schedule.wait|, p);
    HeadIsNear(s.now, s.schedule, r, p);
    EnqueueDeadline(s.now, HeadBy(Push(s.schedule, r, s.now), p), Places(jobs', s.schedule, |s.schedule.wait|, p),
                    Tries(jobs', r, p), p);
  }

  lemma CallKeepsDeadlines(s: State, r: nat, step: CallStep, p: Pace)
    requires Inv(s) && PromptState(s, p) && OnTime(s, p)
    requires CallCan(s.now, s.leases, s.calls, s.jobs, s.db, r, step)
    ensures var s' := CallDoes(s, r, step); DeadlinesInv(s'.calls, s'.jobs, s'.schedule, p)
  {
    var s' := CallDoes(s, r, step);
    CallKeepsScheduled(s, r, step);
    SameDeadlines(s.calls, s.jobs, s'.calls, s'.jobs, s.schedule, p);
    if step.Enqueue? {
      EnqueueInTime(s, r, p);
      PushKeepsDeadlines(s.now, s'.calls, s'.jobs, s.schedule, r, p);
    }
  }

  /** The head of the wait list becomes a job in progress, and stays among those that may return. */
  lemma StartedAhead(jobs: map<nat, Job>, q: Schedule, now: nat, k: nat, p: Pace)
    requires k < |q.wait|
    ensures Ahead(jobs, ScheduleAfter(now, jobs, q, StartAttempt), k, p) == Ahead(jobs, q, k + 1, p)
  {
    FirstElement(q.wait, k);
  }

  lemma FirstElement(xs: seq<nat>, k: nat)
    requires k < |xs|
    ensures Elements(xs[..k + 1]) == {xs[0]} + Elements(xs[1..][..k])
  {
    assert xs[..k + 1] == [xs[0]] + xs[1..][..k];
  }

  lemma StartedPlaces(jobs: map<nat, Job>, q: Schedule, now: nat, k: nat, p: Pace)
    requires k < |q.wait|
    ensures Places(jobs, q, k + 1, p) == Places(jobs, ScheduleAfter(now, jobs, q, StartAttempt), k, p) + 1
  {
    StartedAhead(jobs, q, now, k, p);
  }

  lemma StartedHead(jobs: map<nat, Job>, q: Schedule, now: nat, p: Pace)
    requires CanStart(q, now) && KeepsUp(now, q, p)
    ensures HeadBy(ScheduleAfter(now, jobs, q, StartAttempt), p) <= HeadBy(q, p) + Slot(p)
  {
  }

  /** The job that starts. */
  lemma StartInTime(now: nat, calls: map<nat, Call>, jobs: map<nat, Job>, q: Schedule, p: Pace)
    requires CanStart(q, now) && KeepsUp(now, q, p) && WaitInTime(calls, jobs, q, p, 0)
    ensures InTime(calls, jobs, q.wait[0], ActiveDeadline(now, Tries(jobs, q.wait[0], p), p), p)
  {
  }

  /** A place one nearer to the head, whose head is one slot later. */
  lemma NearerPlace(calls: map<nat, Call>, jobs: map<nat, Job>, q: Schedule, q': Schedule, k: nat, p: Pace)
    requires k + 1 < |q.wait| && k < |q'.wait| && q'.wait[k] == q.wait[k + 1]
    requires HeadBy(q', p) <= HeadBy(q, p) + Slot(p) && Places(jobs, q, k + 1, p) == Places(jobs, q', k, p) + 1
    requires PlaceInTime(calls, jobs, q, p, k + 1)
    ensures PlaceInTime(calls, jobs, q', p, k)
  {
    var places, places' := Places(jobs, q, k + 1, p), Places(jobs, q', k, p);
    StartsAdd(places', 1, p);
    WaitKept(calls, jobs, q, k + 1, places, calls, jobs, q', k, places', p);
  }

  lemma StartedActive(now: nat, calls: map<nat, Call>, jobs: map<nat, Job>, q: Schedule, r: nat, p: Pace)
    requires CanStart(q, now) && ActiveInTime(calls, jobs, q, p, r)
    requires InTime(calls, jobs, q.wait[0], ActiveDeadline(now, Tries(jobs, q.wait[0], p), p), p)
    ensures ActiveInTime(calls, jobs, ScheduleAfter(now, jobs, q, StartAttempt), p, r)
  {
  }

  lemma StartKeepsDeadlines(now: nat, calls: map<nat, Call>, jobs: map<nat, Job>, q: Schedule, p: Pace)
    requires CanStart(q, now) && KeepsUp(now, q, p) && DeadlinesInv(calls, jobs, q, p)
    ensures DeadlinesInv(calls, jobs, ScheduleAfter(now, jobs, q, StartAttempt), p)
  {
    var q' := ScheduleAfter(now, jobs, q, StartAttempt);
    StartedHead(jobs, q, now, p);
    forall k: nat ensures WaitInTime(calls, jobs, q', p, k) {
      assert WaitInTime(calls, jobs, q, p, k + 1);
      if k < |q'.wait| {
        StartedPlaces(jobs, q, now, k, p);
        NearerPlace(calls, jobs, q, q', k, p);
      }
    }
    assert WaitInTime(calls, jobs, q, p, 0);
    StartInTime(now, calls, jobs, q, p);
    forall r: nat ensures ActiveInTime(calls, jobs, q', p, r) {
      assert ActiveInTime(calls, jobs, q, p, r);
      StartedActive(now, calls, jobs, q, r, p);
    }
    forall r: nat ensures DelayedInTime(calls, jobs, q', p, r) {
      assert DelayedInTime(calls, jobs, q, p, r);
      Itself(calls, jobs);
      DelayedKept(calls, jobs, q, calls, jobs, q', r, p);
    }
  }

  /** The jobs other than the one whose attempt ends keep their deadlines. */
  lemma OthersKeepDeadlines(now: nat, calls: map<nat, Call>, jobs: map<nat, Job>, q: Schedule, db: Db,
                            step: WorkerStep, p: Pace)
    requires ScheduleInv(jobs, q) && WorkerCan(now, jobs, q, db, step) && step.EndAttempt?
    requires KeepsUp(now, q, p) && ClockInv(now, q) && DeadlinesInv(calls, jobs, q, p)
    ensures DeadlinesInv(calls, WorkerJobs(now, jobs, step), Finished(q, step.r, now), p)
  {
    var q' := Finished(q, step.r, now);
    FinishKeepsDeadlines(now, calls, jobs, q, step.r, p);
    forall x | Scheduled(q', x) ensures SameJob(calls, jobs, calls, WorkerJobs(now, jobs, step), x) {
      assert x != step.r;
    }
    SameDeadlines(calls, jobs, calls, WorkerJobs(now, jobs, step), q', p);
  }

  /** An attempt that uses up a try leaves the job one fewer. */
  lemma TriesAfter(now: nat, jobs: map<nat, Job>, step: WorkerStep, p: Pace)
    requires step.EndAttempt? && step.r in jobs && jobs[step.r].status.Queued?
    requires jobs[step.r].attemptsLeft >= 1 && StallsInv(jobs)
    requires StallsWithin(WorkerJobs(now, jobs, step), p) && !step.ending.Acked?
    requires WorkerJobs(now, jobs, step)[step.r].status.Queued?
    ensures Tries(WorkerJobs(now, jobs, step), step.r, p) + 1 == Tries(jobs, step.r, p)
    ensures step.ending.Stalled? ==> CanStall(jobs, step.r, p) && !CanStall(WorkerJobs(now, jobs, step), step.r, p)
  {
  }

  lemma BackedOffInTime(now: nat, calls: map<nat, Call>, jobs: map<nat, Job>, jobs': map<nat, Job>, q: Schedule, r: nat, p: Pace)
    requires r in q.active && now <= q.active[r] + p.attempt && ActiveInTime(calls, jobs, q, p, r)
    requires r in jobs && r in jobs' && (jobs[r].committed ==> jobs'[r].committed)
    requires Tries(jobs', r, p) + 1 == Tries(jobs, r, p)
    ensures InTime(calls, jobs', r, DelayedDeadline(now + BACKOFF, Tries(jobs', r, p), p), p)
  {
    FailDeadline(now, q.active[r], Tries(jobs', r, p), p);
  }

  lemma FailKeepsDeadlines(now: nat, calls: map<nat, Call>, jobs: map<nat, Job>, q: Schedule, db: Db,
                           step: WorkerStep, p: Pace)
    requires ScheduleInv(jobs, q) && JobsInv(now, calls, jobs) && WorkerCan(now, jobs, q, db, step)
    requires step.EndAttempt? && step.ending.Errored?
    requires KeepsUp(now, q, p) && ClockInv(now, q) && DeadlinesInv(calls, jobs, q, p)
    requires StallsInv(jobs) && StallsWithin(WorkerJobs(now, jobs, step), p)
    ensures DeadlinesInv(calls, WorkerJobs(now, jobs, step), ScheduleAfter(now, jobs, q, step), p)
  {
    var r := step.r;
    var jobs' := WorkerJobs(now, jobs, step);
    assert Scheduled(q, r) && ActiveInTime(calls, jobs, q, p, r);
    OthersKeepDeadlines(now, calls, jobs, q, db, step, p);
    if jobs[r].attemptsLeft > 1 {
      TriesAfter(now, jobs, step, p);
      BackedOffInTime(now, calls, jobs, jobs', q, r, p);
      DelayKeepsDeadlines(calls, jobs', Finished(q, r, now), r, now + BACKOFF, p);
    }
  }

  lemma ReturnedAhead(jobs: map<nat, Job>, jobs': map<nat, Job>, q: Schedule, r: nat, now: nat, k: nat, p: Pace)
    requires k <= |q.wait| && r in q.active && CanStall(jobs, r, p) && !CanStall(jobs', r, p)
    requires forall x | x != r :: CanStall(jobs', x, p) <==> CanStall(jobs, x, p)
    ensures Ahead(jobs', PushFront(Finished(q, r, now), r, now), k + 1, p) == Ahead(jobs, q, k, p) - {r}
  {
    var wait' := [r] + q.wait;
    FirstElement(wait', k);
    assert wait'[1..] == q.wait;
  }

  /** A job that returns to the front has been counted ahead of the others already. */
  lemma ReturnedPlaces(jobs: map<nat, Job>, jobs': map<nat, Job>, q: Schedule, r: nat, now: nat, k: nat, p: Pace)
    requires k <= |q.wait| && r in q.active && CanStall(jobs, r, p) && !CanStall(jobs', r, p)
    requires forall x | x != r :: CanStall(jobs', x, p) <==> CanStall(jobs, x, p)
    ensures Places(jobs', PushFront(Finished(q, r, now), r, now), k + 1, p) == Places(jobs, q, k, p)
  {
    ReturnedAhead(jobs, jobs', q, r, now, k, p);
    assert r in Ahead(jobs, q, k, p);
  }

  lemma ReturnedHead(now: nat, q: Schedule, r: nat, p: Pace)
    requires r in q.active && KeepsUp(now, q, p) && ClockInv(now, q) && q.wait != []
    ensures HeadBy(PushFront(Finished(q, r, now), r, now), p) <= HeadBy(q, p)
  {
    FinishedHead(now, q, r, p);
  }

  /** A place one further from the head, with the same places ahead. */
  lemma FurtherPlace(calls: map<nat, Call>, jobs: map<nat, Job>, jobs': map<nat, Job>, q: Schedule, q': Schedule,
                     k: nat, p: Pace)
    requires k < |q.wait| && k + 1 < |q'.wait| && q'.wait[k + 1] == q.wait[k] && HeadBy(q', p) <= HeadBy(q, p)
    requires Places(jobs', q', k + 1, p) == Places(jobs, q, k, p) && SameJob(calls, jobs, calls, jobs', q.wait[k])
    requires PlaceInTime(calls, jobs, q, p, k)
    ensures PlaceInTime(calls, jobs', q', p, k + 1)
  {
    var places := Places(jobs, q, k, p);
    WaitKept(calls, jobs, q, k, places, calls, jobs', q', k + 1, places, p);
  }

  /** The jobs behind one that returns to the front keep their deadlines ... */
  lemma ReturnKeepsOthers(now: nat, calls: map<nat, Call>, jobs: map<nat, Job>, jobs': map<nat, Job>, q: Schedule,
                          r: nat, p: Pace)
    requires r in q.active && r !in q.wait && KeepsUp(now, q, p) && ClockInv(now, q) && DeadlinesInv(calls, jobs, q, p)
    requires CanStall(jobs, r, p) && !CanStall(jobs', r, p)
    requires forall x | x != r :: (x in jobs' <==> x in jobs) && (x in jobs ==> jobs'[x] == jobs[x])
    ensures forall k: nat | k > 0 :: WaitInTime(calls, jobs', PushFront(Finished(q, r, now), r, now), p, k)
  {
    var q' := PushFront(Finished(q, r, now), r, now);
    forall x | x != r ensures CanStall(jobs', x, p) <==> CanStall(jobs, x, p) {}
    forall k: nat | k > 0 ensures WaitInTime(calls, jobs', q', p, k) {
      var i: nat := k - 1;
      assert WaitInTime(calls, jobs, q, p, i);
      if i < |q.wait| {
        ReturnedHead(now, q, r, p);
        ReturnedPlaces(jobs, jobs', q, r, now, i, p);
        FurtherPlace(calls, jobs, jobs', q, q', i, p);
      }
    }
  }

  /** ... and its own deadline leaves room for the return. */
  lemma ReturnInTime(now: nat, calls: map<nat, Call>, jobs: map<nat, Job>, jobs': map<nat, Job>, q: Schedule,
                     r: nat, p: Pace)
    requires r in q.active && KeepsUp(now, q, p) && ClockInv(now, q) && ActiveInTime(calls, jobs, q, p, r)
    requires r in jobs && r in jobs' && (jobs[r].committed ==> jobs'[r].committed)
    requires Tries(jobs', r, p) + 1 == Tries(jobs, r, p)
    requires Places(jobs', PushFront(Finished(q, r, now), r, now), 0, p) + 1 <= Load(p)
    ensures WaitInTime(calls, jobs', PushFront(Finished(q, r, now), r, now), p, 0)
  {
    var q' := PushFront(Finished(q, r, now), r, now);
    FinishedClock(now, q, r);
    HeadIsNear(now, Finished(q, r, now), r, p);
    ReturnDeadline(now, q.active[r], HeadBy(q', p), Places(jobs', q', 0, p), Tries(jobs', r, p), p);
  }

  lemma FinishedClock(now: nat, q: Schedule, r: nat)
    requires ClockInv(now, q)
    ensures ClockInv(now, Finished(q, r, now))
  {
  }

  lemma ReturnPlaces(s: State, step: WorkerStep, p: Pace)
    requires Inv(s) && PromptState(s, p) && OnTime(s, p)
    requires WorkerCan(s.now, s.jobs, s.schedule, s.db, step) && step.EndAttempt?
    ensures Places(WorkerJobs(s.now, s.jobs, step), PushFront(Finished(s.schedule, step.r, s.now), step.r, s.now), 0, p) + 1
         <= Load(p)
  {
    var rest := Finished(s.schedule, step.r, s.now).(wait := []);
    var jobs' := WorkerJobs(s.now, s.jobs, step);
    ReturnFits(s, step.r, p);
    PlacesFit(jobs', rest, 0, p);
    FrontPlaces(jobs', s.schedule, step.r, s.now, p);
  }

  lemma FrontPlaces(jobs: map<nat, Job>, q: Schedule, r: nat, now: nat, p: Pace)
    ensures Places(jobs, PushFront(Finished(q, r, now), r, now), 0, p) == Places(jobs, Finished(q, r, now).(wait := []), 0, p)
  {
    SamePlaces(jobs, Finished(q, r, now).(wait := []), PushFront(Finished(q, r, now), r, now), 0, p);
  }

  /** The other jobs in progress leave room for one more. */
  lemma ReturnFits(s: State, r: nat, p: Pace)
    requires Inv(s) && PromptState(s, p) && r in s.schedule.active
    ensures |Started(Finished(s.schedule, r, s.now).(wait := []))| + 1 <= Room(p)
  {
    var others := Started(Finished(s.schedule, r, s.now).(wait := []));
    forall x | x in others + {r} ensures Unsettled(s.calls, s.jobs, x) || x in Repeated(s.jobs) {
      assert Scheduled(s.schedule, x);
      ScheduledIsClaimOrRepeat(s, x);
    }
    JobsFit(s, others + {r}, p);
    assert r !in others;
  }

  lemma ReturnKeepsDeadlines(now: nat, calls: map<nat, Call>, jobs: map<nat, Job>, jobs': map<nat, Job>, q: Schedule,
                             r: nat, p: Pace)
    requires r in q.active && r !in q.wait && KeepsUp(now, q, p) && ClockInv(now, q) && DeadlinesInv(calls, jobs, q, p)
    requires DeadlinesInv(calls, jobs', Finished(q, r, now), p)
    requires CanStall(jobs, r, p) && !CanStall(jobs', r, p) && Tries(jobs', r, p) + 1 == Tries(jobs, r, p)
    requires r in jobs' && (jobs[r].committed ==> jobs'[r].committed)
    requires forall x | x != r :: (x in jobs' <==> x in jobs) && (x in jobs ==> jobs'[x] == jobs[x])
    requires Places(jobs', PushFront(Finished(q, r, now), r, now), 0, p) + 1 <= Load(p)
    ensures DeadlinesInv(calls, jobs', PushFront(Finished(q, r, now), r, now), p)
  {
    var q' := PushFront(Finished(q, r, now), r, now);
    assert ActiveInTime(calls, jobs, q, p, r);
    ReturnKeepsOthers(now, calls, jobs, jobs', q, r, p);
    ReturnInTime(now, calls, jobs, jobs', q, r, p);
    SameActiveAndDelayed(calls, jobs', Finished(q, r, now), q', p);
    forall k: nat ensures WaitInTime(calls, jobs', q', p, k) {
      assert k == 0 || k > 0;
    }
  }

  lemma StallKeepsDeadlines(s: State, step: WorkerStep, p: Pace)
    requires Inv(s) && PromptState(s, p) && OnTime(s, p)
    requires WorkerCan(s.now, s.jobs, s.schedule, s.db, step) && step.EndAttempt? && step.ending.Stalled?
    requires StallsWithin(WorkerJobs(s.now, s.jobs, step), p)
    ensures DeadlinesInv(s.calls, WorkerJobs(s.now, s.jobs, step), ScheduleAfter(s.now, s.jobs, s.schedule, step), p)
  {
    var r, q := step.r, s.schedule;
    var jobs' := WorkerJobs(s.now, s.jobs, step);
    assert Scheduled(q, r) && ActiveInTime(s.calls, s.jobs, q, p, r);
    OthersKeepDeadlines(s.now, s.calls, s.jobs, q, s.db, step, p);
    if s.jobs[r].stallsLeft > 0 {
      TriesAfter(s.now, s.jobs, step, p);
      ReturnPlaces(s, step, p);
      ReturnKeepsDeadlines(s.now, s.calls, s.jobs, jobs', q, r, p);
    }
  }

  lemma SameActiveAndDelayed(calls: map<nat, Call>, jobs: map<nat, Job>, q: Schedule, q': Schedule, p: Pace)
    requires DeadlinesInv(calls, jobs, q, p) && q'.active == q.active && q'.delayed == q.delayed
    ensures forall x: nat :: ActiveInTime(calls, jobs, q', p, x)
    ensures forall x: nat :: DelayedInTime(calls, jobs, q', p, x)
  {
    forall x: nat ensures ActiveInTime(calls, jobs, q', p, x) {
      assert ActiveInTime(calls, jobs, q, p, x);
    }
    forall x: nat ensures DelayedInTime(calls, jobs, q', p, x) {
      assert DelayedInTime(calls, jobs, q, p, x);
    }
  }

  lemma PromoteInTime(s: State, r: nat, p: Pace)
    requires Inv(s) && PromptState(s, p) && OnTime(s, p) && r in s.schedule.delayed
    ensures InTime(s.calls, s.jobs, r, WaitDeadline(HeadBy(Push(s.schedule, r, s.now), p),
      Places(s.jobs, s.schedule, |s.schedule.wait|, p), Tries(s.jobs, r, p), p), p)
  {
    assert Scheduled(s.schedule, r);
    assert DelayedInTime(s.calls, s.jobs, s.schedule, p, r);
    ScheduledIsClaimOrRepeat(s, r);
    QueueFits(s, r, p);
    PlacesFit(s.jobs, s.schedule, |s.schedule.wait|, p);
    HeadIsNear(s.now, s.schedule, r, p);
    PromoteDeadline(s.now, HeadBy(Push(s.schedule, r, s.now), p), Places(s.jobs, s.schedule, |s.schedule.wait|, p),
                    s.schedule.delayed[r], Tries(s.jobs, r, p), p);
  }

  lemma UndelayedPush(jobs: map<nat, Job>, q: Schedule, r: nat, now: nat, p: Pace)
    ensures var rest := q.(delayed := q.delayed - {r});
      && Places(jobs, rest, |rest.wait|, p) == Places(jobs, q, |q.wait|, p)
      && HeadBy(Push(rest, r, now), p) == HeadBy(Push(q, r, now), p)
  {
    assert Ahead(jobs, q.(delayed := q.delayed - {r}), |q.wait|, p) == Ahead(jobs, q, |q.wait|, p);
  }

  lemma PromoteKeepsDeadlines(s: State, r: nat, p: Pace)
    requires Inv(s) && PromptState(s, p) && OnTime(s, p)
    requires WorkerCan(s.now, s.jobs, s.schedule, s.db, Promote(r))
    ensures DeadlinesInv(s.calls, s.jobs, ScheduleAfter(s.now, s.jobs, s.schedule, Promote(r)), p)
  {
    var rest := s.schedule.(delayed := s.schedule.delayed - {r});
    PromoteInTime(s, r, p);
    UndelayKeepsDeadlines(s.calls, s.jobs, s.schedule, r, p);
    UndelayedPush(s.jobs, s.schedule, r, s.now, p);
    PushKeepsDeadlines(s.now, s.calls, s.jobs, rest, r, p);
  }

  lemma WorkerKeepsDeadlines(s: State, step: WorkerStep, p: Pace)
    requires Inv(s) && PromptState(s, p) && OnTime(s, p)
    requires WorkerCan(s.now, s.jobs, s.schedule, s.db, step) && StallsWithin(WorkerJobs(s.now, s.jobs, step), p)
    ensures DeadlinesInv(s.calls, WorkerJobs(s.now, s.jobs, step), ScheduleAfter(s.now, s.jobs, s.schedule, step), p)
  {
    match step
    case StartAttempt => StartKeepsDeadlines(s.now, s.calls, s.jobs, s.schedule, p);
    case Promote(r) => PromoteKeepsDeadlines(s, r, p);
    case EndAttempt(_, _, ending) =>
      match ending
      case Acked => OthersKeepDeadlines(s.now, s.calls, s.jobs, s.schedule, s.db, step, p);
      case Errored => FailKeepsDeadlines(s.now, s.calls, s.jobs, s.schedule, s.db, step, p);
      case Stalled => StallKeepsDeadlines(s, step, p);
  }

  lemma ClockKeptByWork(now: nat, jobs: map<nat, Job>, q: Schedule, db: Db, step: WorkerStep)
    requires WorkerCan(now, jobs, q, db, step) && ClockInv(now, q)
    ensures ClockInv(now, ScheduleAfter(now, jobs, q, step))
  {
  }

  lemma ClockKept(s: State, a: Action)
    requires Enabled(s, a) && ClockInv(s.now, s.schedule)
    ensures ClockInv(Apply(s, a).now, Apply(s, a).schedule)
  {
    match a
    case Worker(step) => ClockKeptByWork(s.now, s.jobs, s.schedule, s.db, step);
    case _ =>
  }

  lemma StallsKept(s: State, a: Action)
    requires Enabled(s, a) && StallsInv(s.jobs)
    ensures StallsInv(Apply(s, a).jobs)
  {
  }

  /** A step that is neither a call's nor a worker's touches no call, no job and no schedule. */
  lemma OthersLeaveTheQueue(s: State, a: Action)
    requires Enabled(s, a) && !a.Seating? && !a.Worker?
    ensures Apply(s, a).calls == s.calls && Apply(s, a).jobs == s.jobs && Apply(s, a).schedule == s.schedule
  {
  }

  /** Every step between prompt states keeps every job's deadline within the bound. */
  lemma StepKeepsDeadlines(s: State, a: Action, p: Pace)
    requires Inv(s) && PromptState(s, p) && OnTime(s, p)
    requires Enabled(s, a) && PromptState(Apply(s, a), p)
    ensures OnTime(Apply(s, a), p)
  {
    ClockKept(s, a);
    StallsKept(s, a);
    match a
    case Seating(r, step) => CallKeepsDeadlines(s, r, step, p);
    case Worker(step) => WorkerKeepsDeadlines(s, step, p);
    case _ => OthersLeaveTheQueue(s, a);
  }

  // ---- The timing windows follow ----

  /** When no worker is idle, one is busy, and no later than allowed. */
  lemma BusyHead(now: nat, q: Schedule, p: Pace)
    requires KeepsUp(now, q, p) && ClockInv(now, q) && q.wait != []
    ensures now <= HeadBy(q, p) + p.lag
  {
    if !WorkerIdle(q) {
      assert q.active != map[];
      var r :| r in q.active;
    }
  }

  /** Workers that keep up meet every deadline. */
  lemma ScheduledIsYoung(now: nat, calls: map<nat, Call>, jobs: map<nat, Job>, q: Schedule, r: nat, p: Pace)
    requires Scheduled(q, r) && r in jobs && !jobs[r].committed
    requires KeepsUp(now, q, p) && ClockInv(now, q) && DeadlinesInv(calls, jobs, q, p)
    ensures r in calls && now < calls[r].flaggedAt + Bound(p)
  {
    if r in q.wait {
      var k: nat :| k < |q.wait| && q.wait[k] == r;
      BusyHead(now, q, p);
      assert WaitInTime(calls, jobs, q, p, k);
    } else if r in q.delayed {
      assert DelayedInTime(calls, jobs, q, p, r);
    } else {
      assert ActiveInTime(calls, jobs, q, p, r);
    }
  }

  lemma EnqueueFits(p: Pace)
    ensures p.enqueue <= Bound(p)
  {
  }

  /** So every open claim is younger than the bound. */
  lemma DeadlinesKeepClaimsYoung(s: State, p: Pace)
    requires PromptState(s, p) && ClockInv(s.now, s.schedule) && DeadlinesInv(s.calls, s.jobs, s.schedule, p)
    requires ScheduleInv(s.jobs, s.schedule) && JobsInv(s.now, s.calls, s.jobs)
    ensures ClaimsYoungerThan(s, Bound(p))
  {
    forall r | Unsettled(s.calls, s.jobs, r) ensures s.now < s.calls[r].flaggedAt + Bound(p) {
      if Scheduled(s.schedule, r) {
        ScheduledIsYoung(s.now, s.calls, s.jobs, s.schedule, r, p);
      } else {
        EnqueueFits(p);
      }
    }
  }

  lemma YoungerStill(s: State, d: nat, d': nat)
    requires ClaimsYoungerThan(s, d) && d <= d'
    ensures ClaimsYoungerThan(s, d')
  {
  }

  /** What is known of a state of a prompt run. */
  ghost predicate Prompt(s: State, p: Pace) {
    Inv(s) && PromptState(s, p) && OnTime(s, p) && ClaimsYoungerThan(s, Bound(p))
  }

  lemma PromptStart(s: State, p: Pace)
    requires Init(s) && PromptState(s, p)
    ensures Prompt(s, p)
  {
    InitInv(s);
    assert forall k: nat :: WaitInTime(s.calls, s.jobs, s.schedule, p, k);
  }

  /** A prompt step is timely, and leads to a state of which the same is known. */
  lemma PromptStep(s: State, a: Action, p: Pace)
    requires Prompt(s, p) && Bound(p) <= FLAG_TTL
    requires Enabled(s, a) && WritesWithin(s, a, LEASE, LEASE) && PromptState(Apply(s, a), p)
    ensures TimelyStep(s, a, LEASE, LEASE, FLAG_TTL) && Prompt(Apply(s, a), p)
  {
    var s' := Apply(s, a);
    StepKeepsDeadlines(s, a, p);
    StepKeepsSchedule(s, a);
    StepKeepsJobs(s, a);
    DeadlinesKeepClaimsYoung(s', p);
    YoungerStill(s, Bound(p), FLAG_TTL);
    YoungerStill(s', Bound(p), FLAG_TTL);
    StepKeepsInv(s, a);
  }

  /** The jobs' and the schedule's parts of the invariant need no timing. */
  lemma StepKeepsJobs(s: State, a: Action)
    requires Inv(s) && Enabled(s, a)
    ensures JobsInv(Apply(s, a).now, Apply(s, a).calls, Apply(s, a).jobs)
  {
    match a
    case Seating(r, step) => JobsKept(s.now, s.leases, s.flags, s.calls, s.jobs, s.db, r, step);
    case Worker(step) => JobsKeptByWork(s.now, s.calls, s.jobs, s.schedule, s.db, step);
    case _ =>
  }

  lemma PromptStartAt(states: seq<State>, acts: seq<Action>, p: Pace)
    requires PromptRun(states, acts, p)
    ensures Prompt(states[0], p)
  {
    assert PromptAt(states, acts, p, 0);
    PromptStart(states[0], p);
  }

  lemma PromptStepAt(states: seq<State>, acts: seq<Action>, p: Pace, k: nat)
    requires PromptRun(states, acts, p) && k < |acts| && Prompt(states[k], p) && Bound(p) <= FLAG_TTL
    ensures TimelyAt(states, acts, LEASE, LEASE, FLAG_TTL, k) && Prompt(states[k + 1], p)
  {
    assert StepAt(states, acts, k) && PromptAt(states, acts, p, k) && PromptAt(states, acts, p, k + 1);
    PromptStep(states[k], acts[k], p);
  }

  lemma {:induction false} PromptStates(states: seq<State>, acts: seq<Action>, p: Pace, i: nat)
    requires PromptRun(states, acts, p) && Bound(p) <= FLAG_TTL && i <= |acts|
    ensures Prompt(states[i], p)
  {
    if i == 0 {
      PromptStartAt(states, acts, p);
    } else {
      var k := i - 1;
      PromptStates(states, acts, p, k);
      PromptStepAt(states, acts, p, k);
    }
  }

  /** In a prompt run whose bound fits the flag's lifetime no claim is ever older than the bound; so the run
      keeps the timing windows, and everything proved about safe runs holds of it. */
  lemma PromptRunIsSafe(states: seq<State>, acts: seq<Action>, p: Pace)
    requires PromptRun(states, acts, p) && Bound(p) <= FLAG_TTL
    ensures SafeRun(states, acts)
    ensures forall i: nat | i <= |acts| :: ClaimsYoungerThan(states[i], Bound(p))
  {
    forall i: nat | i <= |acts| ensures ClaimsYoungerThan(states[i], Bound(p)) {
      PromptStates(states, acts, p, i);
    }
    forall i: nat | i < |acts| ensures TimelyAt(states, acts, LEASE, LEASE, FLAG_TTL, i) {
      PromptStates(states, acts, p, i);
      PromptStepAt(states, acts, p, i);
    }
  }

  // ---- What a buyer gets, and when ----

  lemma FlagTimeStays(s: State, a: Action, r: nat)
    requires JobsInv(s.now, s.calls, s.jobs) && Enabled(s, a) && r in s.jobs
    ensures r in Apply(s, a).calls && Apply(s, a).calls[r].flaggedAt == s.calls[r].flaggedAt
  {
  }

  lemma FlagTimeStaysAt(states: seq<State>, acts: seq<Action>, r: nat, k: nat)
    requires SafeRun(states, acts) && k < |acts| && r in states[k].jobs
    ensures r in states[k].calls && r in states[k + 1].calls
    ensures states[k + 1].calls[r].flaggedAt == states[k].calls[r].flaggedAt
  {
    RunInv(states, acts, k);
    FlagTimeStays(states[k], acts[k], r);
  }

  lemma {:induction false} FlagTimeIsFinal(states: seq<State>, acts: seq<Action>, r: nat, i: nat, j: nat)
    requires SafeRun(states, acts) && i <= j <= |acts| && r in states[i].jobs && r in states[i].calls
    ensures r in states[j].calls && states[j].calls[r].flaggedAt == states[i].calls[r].flaggedAt
    decreases j
  {
    if i < j {
      var k := j - 1;
      FlagTimeIsFinal(states, acts, r, i, k);
      JobStaysForever(states, acts, r, i, k);
      FlagTimeStaysAt(states, acts, r, k);
    }
  }

  /** Once the bound has passed since its flag, a granted caller holds the ticket, or its job has used up its
      three attempts, or stalled once too often: in a prompt run nobody waits longer to know. */
  lemma GrantsAreSettledInTime(states: seq<State>, acts: seq<Action>, p: Pace, r: nat, i: nat, j: nat)
    requires PromptRun(states, acts, p) && Bound(p) <= FLAG_TTL && i <= j <= |acts| && ToldGranted(states[i], r)
    requires states[j].now >= states[i].calls[r].flaggedAt + Bound(p)
    ensures var b := states[i].calls[r].booking;
      GivenUp(states[j], r) || SoldTo(states[j].db, b.ticketId, b.userId)
  {
    PromptRunIsSafe(states, acts, p);
    GrantedAnswersHold(states, acts, r, i, j);
    GrantHasJob(states, acts, r, i);
    FlagTimeIsFinal(states, acts, r, i, j);
    assert ClaimsYoungerThan(states[j], Bound(p));
  }

  /** Ten thousand seats are within reach of the queue's settings: with at most 2.8 s from start to start when no
      job stalls, or 1.07 s when each may stall once, no claim stays open for more than 85700 s, less than a day,
      and every seat is sold once. */
  lemma TenThousandTicketsSellOnce(states: seq<State>, acts: seq<Action>, p: Pace, i: nat, t: Id)
    requires PromptRun(states, acts, p) && p.tickets + p.repeats <= 10000 && p.enqueue <= LEASE
    requires Slot(p) <= (if p.mayStall then 1070 else 2800) && i <= |acts|
    ensures Bound(p) <= 85700000 < FLAG_TTL && ClaimsYoungerThan(states[i], Bound(p))
    ensures |PastCheck(states[i], t)| + |OpenJobs(states[i], t)| + |LinkedTo(states[i], t)| <= 1
  {
    TenThousandFit(p);
    PromptRunIsSafe(states, acts, p);
    RunSellsOnce(states, acts, t, i);
  }

  lemma TenThousandFit(p: Pace)
    requires p.tickets + p.repeats <= 10000 && p.enqueue <= LEASE && Slot(p) <= (if p.mayStall then 1070 else 2800)
    ensures Bound(p) <= 85700000
  {
    var most := if p.mayStall then 80007 else 30005;
    StartsMonotone(if p.mayStall then 8 * Room(p) + 7 else 3 * Room(p) + 5, most, p);
    StartsAre(most, p);
  }
}
