/** How often a job is tried, and when, over every run: three errors or a second stall end it, starts are a second
    apart, and a retry waits a second. */
module Attempts {
  import opened Tables
  import opened SaleProtocol
  import opened SaleInvariant
  import opened Recovery

  // ---- How often ----

  /** An attempt at `r` ends so. */
  predicate Ends(a: Action, r: nat, ending: Ending) {
    a.Worker? && a.work.EndAttempt? && a.work.r == r && a.work.ending == ending
  }

  /** How many of the first `k` actions end an attempt at `r` so. */
  function Tally(acts: seq<Action>, k: nat, r: nat, ending: Ending): nat
    requires k <= |acts|
  {
    if k == 0 then 0 else Tally(acts, k - 1, r, ending) + (if Ends(acts[k - 1], r, ending) then 1 else 0)
  }

  /** A job's record agrees with the errors and stalls it has had. */
  predicate TallyAgrees(jobs: map<nat, Job>, r: nat, errors: nat, stalls: nat) {
    if r !in jobs then errors == 0 && stalls == 0
    else
      var j := jobs[r];
      && j.attemptsLeft + errors == 3
      && (if j.status.Exhausted? && j.status.byStall then stalls == 2 else j.stallsLeft + stalls == 1)
      && (if j.status.Exhausted? && !j.status.byStall then errors == 3 else errors < 3)
  }

  lemma EndKeepsTally(now: nat, jobs: map<nat, Job>, q: Schedule, db: Db, step: WorkerStep, errors: nat, stalls: nat)
    requires ScheduleInv(jobs, q) && WorkerCan(now, jobs, q, db, step) && step.EndAttempt?
    requires TallyAgrees(jobs, step.r, errors, stalls)
    ensures TallyAgrees(WorkerJobs(now, jobs, step), step.r,
      errors + (if step.ending.Errored? then 1 else 0), stalls + (if step.ending.Stalled? then 1 else 0))
  {
    assert Scheduled(q, step.r);
  }

  lemma OtherStepsKeepTally(s: State, a: Action, r: nat, errors: nat, stalls: nat)
    requires Enabled(s, a) && TallyAgrees(s.jobs, r, errors, stalls) && !(a.Worker? && a.work.EndAttempt? && a.work.r == r)
    ensures TallyAgrees(Apply(s, a).jobs, r, errors, stalls)
  {
  }

  lemma StepKeepsTally(s: State, a: Action, r: nat, errors: nat, stalls: nat)
    requires ScheduleInv(s.jobs, s.schedule) && Enabled(s, a) && TallyAgrees(s.jobs, r, errors, stalls)
    ensures TallyAgrees(Apply(s, a).jobs, r,
      errors + (if Ends(a, r, Errored) then 1 else 0), stalls + (if Ends(a, r, Stalled) then 1 else 0))
  {
    if a.Worker? && a.work.EndAttempt? && a.work.r == r {
      EndKeepsTally(s.now, s.jobs, s.schedule, s.db, a.work, errors, stalls);
    } else {
      OtherStepsKeepTally(s, a, r, errors, stalls);
    }
  }

  lemma StepKeepsTallyAt(states: seq<State>, acts: seq<Action>, r: nat, k: nat)
    requires Run(states, acts) && Init(states[0]) && k < |acts|
    requires TallyAgrees(states[k].jobs, r, Tally(acts, k, r, Errored), Tally(acts, k, r, Stalled))
    ensures TallyAgrees(states[k + 1].jobs, r, Tally(acts, k + 1, r, Errored), Tally(acts, k + 1, r, Stalled))
  {
    AlwaysInRun(states, acts, k);
    assert StepAt(states, acts, k);
    StepKeepsTally(states[k], acts[k], r, Tally(acts, k, r, Errored), Tally(acts, k, r, Stalled));
  }

  lemma {:induction false} TallyInRun(states: seq<State>, acts: seq<Action>, r: nat, i: nat)
    requires Run(states, acts) && Init(states[0]) && i <= |acts|
    ensures TallyAgrees(states[i].jobs, r, Tally(acts, i, r, Errored), Tally(acts, i, r, Stalled))
  {
    if i > 0 {
      var k := i - 1;
      TallyInRun(states, acts, r, k);
      StepKeepsTallyAt(states, acts, r, k);
    }
  }

  /** In every run, a job has failed for good exactly when three of its attempts have ended in an error or two have
      stalled; until then it is tried again. */
  lemma TriesAreExact(states: seq<State>, acts: seq<Action>, r: nat, i: nat)
    requires Run(states, acts) && Init(states[0]) && i <= |acts| && r in states[i].jobs
    ensures states[i].jobs[r].status.Exhausted? <==> Tally(acts, i, r, Errored) == 3 || Tally(acts, i, r, Stalled) == 2
    ensures states[i].jobs[r].status.Exhausted? ==>
      if states[i].jobs[r].status.byStall then Tally(acts, i, r, Stalled) == 2 else Tally(acts, i, r, Errored) == 3
    ensures Tally(acts, i, r, Errored) <= 3 && Tally(acts, i, r, Stalled) <= 2
  {
    TallyInRun(states, acts, r, i);
  }

  // ---- When ----

  predicate StartsAt(acts: seq<Action>, k: nat) {
    k < |acts| && acts[k] == Worker(StartAttempt)
  }

  predicate SecondSince(states: seq<State>, k: nat, time: nat) {
    k < |states| && states[k].now + 1000 <= time
  }

  /** The next start is a second after the last one. */
  ghost predicate StartsSpaced(states: seq<State>, acts: seq<Action>, j: nat, nextStart: nat)
    requires |states| > 0
  {
    && (forall k: nat | k < j && StartsAt(acts, k) :: SecondSince(states, k, nextStart))
    && (nextStart == states[0].schedule.nextStart
        || exists k: nat :: k < j && StartsAt(acts, k) && k < |states| && states[k].now + 1000 == nextStart)
  }

  lemma NextStartAfter(s: State, a: Action)
    requires Enabled(s, a)
    ensures Apply(s, a).schedule.nextStart == if a == Worker(StartAttempt) then s.now + 1000 else s.schedule.nextStart
    ensures a == Worker(StartAttempt) ==> s.schedule.nextStart <= s.now
    ensures Apply(s, a).now >= s.now
  {
  }

  lemma StartsSpacedAt(states: seq<State>, acts: seq<Action>, k: nat)
    requires Run(states, acts) && k < |acts| && StartsSpaced(states, acts, k, states[k].schedule.nextStart)
    ensures StartsSpaced(states, acts, k + 1, states[k + 1].schedule.nextStart)
  {
    assert StepAt(states, acts, k);
    NextStartAfter(states[k], acts[k]);
    SpacedAfter(states, acts, k, states[k].schedule.nextStart, states[k + 1].schedule.nextStart);
  }

  lemma SpacedAfter(states: seq<State>, acts: seq<Action>, k: nat, next: nat, next': nat)
    requires |states| > 0 && k < |acts| && k < |states| && StartsSpaced(states, acts, k, next)
    requires next' == (if StartsAt(acts, k) then states[k].now + 1000 else next)
    requires StartsAt(acts, k) ==> next <= states[k].now
    ensures StartsSpaced(states, acts, k + 1, next')
  {
    forall x: nat | x < k + 1 && StartsAt(acts, x) ensures SecondSince(states, x, next') {
      assert x < k ==> SecondSince(states, x, next);
    }
  }

  lemma {:induction false} StartsSpacedInRun(states: seq<State>, acts: seq<Action>, i: nat)
    requires Run(states, acts) && i <= |acts|
    ensures StartsSpaced(states, acts, i, states[i].schedule.nextStart)
    ensures states[0].now <= states[i].now
  {
    if i > 0 {
      var k := i - 1;
      StartsSpacedInRun(states, acts, k);
      StartsSpacedAt(states, acts, k);
      assert StepAt(states, acts, k);
      NextStartAfter(states[k], acts[k]);
    }
  }

  /** In every run, an attempt can start exactly when a job waits, a worker is idle, and every earlier start is at
      least a second ago, whichever worker made it. */
  lemma StartsAreExact(states: seq<State>, acts: seq<Action>, i: nat)
    requires Run(states, acts) && Init(states[0]) && i <= |acts|
    ensures Enabled(states[i], Worker(StartAttempt)) <==>
      && states[i].schedule.wait != [] && |states[i].schedule.active| < states[i].schedule.workers
      && (forall k: nat | k < i && StartsAt(acts, k) :: SecondSince(states, k, states[i].now))
  {
    StartsSpacedInRun(states, acts, i);
  }

  /** Step `k` starts an attempt at job `r`, the first of those that wait. */
  predicate StartsJobAt(states: seq<State>, acts: seq<Action>, r: nat, k: nat) {
    k < |states| && StartsAt(acts, k) && states[k].schedule.wait != [] && states[k].schedule.wait[0] == r
  }

  predicate EndsJobAt(acts: seq<Action>, r: nat, k: nat) {
    k < |acts| && acts[k].Worker? && acts[k].work.EndAttempt? && acts[k].work.r == r
  }

  /** The attempt at job `r` that step `k` starts has not ended at state `i`. */
  ghost predicate GoesOnSince(states: seq<State>, acts: seq<Action>, r: nat, k: nat, i: nat) {
    k < i && StartsJobAt(states, acts, r, k) && (forall x: nat | k < x < i :: !EndsJobAt(acts, r, x))
  }

  lemma AttemptAfter(s: State, a: Action, r: nat)
    requires Enabled(s, a) && ScheduleInv(s.jobs, s.schedule)
    ensures var starts := a == Worker(StartAttempt) && s.schedule.wait[0] == r;
      var ends := a.Worker? && a.work.EndAttempt? && a.work.r == r;
      && (r in Apply(s, a).schedule.active <==> starts || (r in s.schedule.active && !ends))
      && (starts ==> r !in s.schedule.active && Apply(s, a).schedule.active[r] == s.now)
      && (r in s.schedule.active && !ends ==> Apply(s, a).schedule.active[r] == s.schedule.active[r])
  {
  }

  lemma GoesOnAfter(states: seq<State>, acts: seq<Action>, r: nat, k: nat, i: nat)
    requires i < |acts| && i < |states|
    ensures GoesOnSince(states, acts, r, k, i + 1)
       <==> (k == i && StartsJobAt(states, acts, r, i)) || (GoesOnSince(states, acts, r, k, i) && !EndsJobAt(acts, r, i))
  {
    if GoesOnSince(states, acts, r, k, i + 1) && k < i {
      assert !EndsJobAt(acts, r, i);
    }
  }

  lemma AttemptAfterAt(states: seq<State>, acts: seq<Action>, r: nat, k: nat)
    requires Run(states, acts) && Init(states[0]) && k < |acts|
    ensures var q, q' := states[k].schedule, states[k + 1].schedule;
      && (r in q'.active <==> StartsJobAt(states, acts, r, k) || (r in q.active && !EndsJobAt(acts, r, k)))
      && (StartsJobAt(states, acts, r, k) ==> r !in q.active && q'.active[r] == states[k].now)
      && (r in q.active && !EndsJobAt(acts, r, k) ==> q'.active[r] == q.active[r])
  {
    AlwaysInRun(states, acts, k);
    assert StepAt(states, acts, k);
    AttemptAfter(states[k], acts[k], r);
  }

  /** In every run, a job is in progress exactly when an attempt has started at it, first of those that waited, and
      has not ended since; the queue has the time of that start. */
  lemma {:induction false} AttemptsAreExact(states: seq<State>, acts: seq<Action>, r: nat, i: nat)
    requires Run(states, acts) && Init(states[0]) && i <= |acts|
    ensures r in states[i].schedule.active <==> exists k: nat :: GoesOnSince(states, acts, r, k, i)
    ensures forall k: nat | GoesOnSince(states, acts, r, k, i) :: states[i].schedule.active[r] == states[k].now
  {
    if i > 0 {
      var k := i - 1;
      AttemptsAreExact(states, acts, r, k);
      AttemptAfterAt(states, acts, r, k);
      forall x: nat ensures GoesOnSince(states, acts, r, x, i)
         <==> (x == k && StartsJobAt(states, acts, r, k)) || (GoesOnSince(states, acts, r, x, k) && !EndsJobAt(acts, r, k))
      {
        GoesOnAfter(states, acts, r, x, k);
      }
      if StartsJobAt(states, acts, r, k) {
        assert GoesOnSince(states, acts, r, k, i);
      }
    }
  }

  predicate PromotesAt(acts: seq<Action>, r: nat, k: nat) {
    k < |acts| && acts[k] == Worker(Promote(r))
  }

  /** Job `r` is backed off until `ready`, and in no other place of the schedule. */
  predicate BackedOff(q: Schedule, r: nat, ready: nat) {
    r in q.delayed && q.delayed[r] == ready && r !in q.wait && r !in q.active
  }

  lemma BackedOffStays(s: State, a: Action, r: nat, ready: nat)
    requires ScheduleInv(s.jobs, s.schedule) && Enabled(s, a) && BackedOff(s.schedule, r, ready) && a != Worker(Promote(r))
    ensures BackedOff(Apply(s, a).schedule, r, ready)
  {
    assert Scheduled(s.schedule, r);
    if a.Worker? {
      WorkKeepsBackedOff(s.now, s.jobs, s.schedule, s.db, a.work, r, ready);
    }
  }

  lemma WorkKeepsBackedOff(now: nat, jobs: map<nat, Job>, q: Schedule, db: Db, step: WorkerStep, r: nat, ready: nat)
    requires WorkerCan(now, jobs, q, db, step) && BackedOff(q, r, ready) && step != Promote(r)
    ensures BackedOff(ScheduleAfter(now, jobs, q, step), r, ready)
  {
  }

  lemma ErrorBacksOff(s: State, a: Action, r: nat)
    requires ScheduleInv(s.jobs, s.schedule) && Enabled(s, a) && Ends(a, r, Errored) && Apply(s, a).jobs[r].status.Queued?
    ensures BackedOff(Apply(s, a).schedule, r, s.now + 1000)
  {
    assert Scheduled(s.schedule, r);
  }

  lemma BackedOffStaysAt(states: seq<State>, acts: seq<Action>, r: nat, ready: nat, k: nat)
    requires Run(states, acts) && Init(states[0]) && k < |acts|
    requires BackedOff(states[k].schedule, r, ready) && !PromotesAt(acts, r, k)
    ensures BackedOff(states[k + 1].schedule, r, ready)
  {
    AlwaysInRun(states, acts, k);
    assert StepAt(states, acts, k);
    BackedOffStays(states[k], acts[k], r, ready);
  }

  lemma ErrorBacksOffAt(states: seq<State>, acts: seq<Action>, r: nat, i: nat)
    requires Run(states, acts) && Init(states[0]) && i < |acts| && Ends(acts[i], r, Errored)
    requires r in states[i + 1].jobs && states[i + 1].jobs[r].status.Queued?
    ensures BackedOff(states[i + 1].schedule, r, states[i].now + 1000)
  {
    AlwaysInRun(states, acts, i);
    assert StepAt(states, acts, i);
    ErrorBacksOff(states[i], acts[i], r);
  }

  /** In every run, a job that met an error and is to be tried again stays off the wait list until it is promoted,
      and it can be promoted exactly when a second has passed. */
  lemma {:induction false} BackoffIsExact(states: seq<State>, acts: seq<Action>, r: nat, i: nat, j: nat)
    requires Run(states, acts) && Init(states[0]) && i < j <= |acts| && Ends(acts[i], r, Errored)
    requires r in states[i + 1].jobs && states[i + 1].jobs[r].status.Queued?
    requires forall k: nat | i < k < j :: !PromotesAt(acts, r, k)
    ensures BackedOff(states[j].schedule, r, states[i].now + 1000)
    ensures Enabled(states[j], Worker(Promote(r))) <==> states[j].now >= states[i].now + 1000
    decreases j
  {
    if i + 1 == j {
      ErrorBacksOffAt(states, acts, r, i);
    } else {
      var k := j - 1;
      BackoffIsExact(states, acts, r, i, k);
      BackedOffStaysAt(states, acts, r, states[i].now + 1000, k);
    }
  }
}
