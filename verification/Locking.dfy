/** What a lock is worth, over every run: it belongs to a call that is still at work or has crashed, it is given
    back when the call returns, and it keeps everybody else out for exactly five seconds. */
module Locking {
  import opened Tables
  import opened SaleProtocol
  import opened SaleInvariant

  // ---- Whose locks there are ----

  /** Every ticket lease belongs to a call for that ticket that is still holding its lock, or has crashed. */
  ghost predicate TicketHolders(leases: map<Id, Lease>, calls: map<nat, Call>) {
    forall t | t in leases ::
      && leases[t].owner in calls && TicketOf(calls, leases[t].owner) == t
      && (Holding(calls[leases[t].owner].phase) || calls[leases[t].owner].phase.Crashed?)
  }

  /** The same for the leases of events. */
  ghost predicate EventHolders(eventLeases: map<Id, Lease>, standing: map<nat, StandingCall>) {
    forall e | e in eventLeases ::
      && eventLeases[e].owner in standing && standing[eventLeases[e].owner].eventId == e
      && (HoldingEvent(standing[eventLeases[e].owner].phase) || standing[eventLeases[e].owner].phase.StandingCrashed?)
  }

  ghost predicate HoldersInv(s: State) {
    TicketHolders(s.leases, s.calls) && EventHolders(s.eventLeases, s.standing)
  }

  lemma CallKeepsHolders(s: State, r: nat, step: CallStep)
    requires TicketHolders(s.leases, s.calls) && CallCan(s.now, s.leases, s.calls, s.jobs, s.db, r, step)
    ensures TicketHolders(CallDoes(s, r, step).leases, CallDoes(s, r, step).calls)
  {
  }

  lemma StandingKeepsHolders(s: State, q: nat, step: StandingStep)
    requires EventHolders(s.eventLeases, s.standing) && StandingCan(s.now, s.eventLeases, s.standing, s.db, q, step)
    ensures EventHolders(StandingDoes(s, q, step).eventLeases, StandingDoes(s, q, step).standing)
  {
  }

  lemma StepKeepsHolders(s: State, a: Action)
    requires HoldersInv(s) && Enabled(s, a)
    ensures HoldersInv(Apply(s, a))
  {
    match a
    case Seating(r, step) => CallKeepsHolders(s, r, step);
    case Standing(q, step) => StandingKeepsHolders(s, q, step);
    case _ =>
  }

  /** Nothing is locked. */
  predicate Unlocked(s: State) {
    s.leases == map[] && s.eventLeases == map[]
  }

  lemma StepKeepsHoldersAt(states: seq<State>, acts: seq<Action>, k: nat)
    requires Run(states, acts) && k < |acts| && HoldersInv(states[k])
    ensures HoldersInv(states[k + 1])
  {
    assert StepAt(states, acts, k);
    StepKeepsHolders(states[k], acts[k]);
  }

  /** In every run from an unlocked state, every lease belongs to a call that still holds its lock, or has crashed. */
  lemma {:induction false} LeasesHaveHolders(states: seq<State>, acts: seq<Action>, i: nat)
    requires Run(states, acts) && Unlocked(states[0]) && i <= |acts|
    ensures HoldersInv(states[i])
  {
    if i > 0 {
      var k := i - 1;
      LeasesHaveHolders(states, acts, k);
      StepKeepsHoldersAt(states, acts, k);
    }
  }

  /** So a call that has returned owns no lease any more, of its own ticket or any other. */
  lemma ReturnedCallsOwnNothing(states: seq<State>, acts: seq<Action>, i: nat)
    requires Run(states, acts) && Unlocked(states[0]) && i <= |acts|
    ensures forall t | t in states[i].leases ::
      states[i].leases[t].owner in states[i].calls && !states[i].calls[states[i].leases[t].owner].phase.Returned?
    ensures forall e | e in states[i].eventLeases ::
      && states[i].eventLeases[e].owner in states[i].standing
      && !states[i].standing[states[i].eventLeases[e].owner].phase.StandingReturned?
  {
    LeasesHaveHolders(states, acts, i);
  }

  // ---- What a step does to a lock ----

  /** The call of the seating route that takes the lock of `t` in this step. */
  predicate Takes(s: State, a: Action, r: nat, t: Id) {
    a == Seating(r, Acquire) && r in s.calls && TicketOf(s.calls, r) == t
  }

  predicate TakesEvent(s: State, a: Action, q: nat, e: Id) {
    a == Standing(q, AcquireEvent) && q in s.standing && s.standing[q].eventId == e
  }

  /** A lease goes away only by its owner's release, or is replaced when it is over; another call's release leaves
      it, whatever key that call has locked. */
  lemma LeaseStays(s: State, a: Action, t: Id)
    requires Enabled(s, a) && t in s.leases
    ensures a != Seating(s.leases[t].owner, Release) && !(a.Seating? && Takes(s, a, a.r, t)) ==>
      t in Apply(s, a).leases && Apply(s, a).leases[t] == s.leases[t]
    ensures a.Seating? && Takes(s, a, a.r, t) ==> s.leases[t].until <= s.now
  {
  }

  lemma EventLeaseStays(s: State, a: Action, e: Id)
    requires Enabled(s, a) && e in s.eventLeases
    ensures a != Standing(s.eventLeases[e].owner, ReleaseEvent) && !(a.Standing? && TakesEvent(s, a, a.q, e)) ==>
      e in Apply(s, a).eventLeases && Apply(s, a).eventLeases[e] == s.eventLeases[e]
    ensures a.Standing? && TakesEvent(s, a, a.q, e) ==> s.eventLeases[e].until <= s.now
  {
  }

  /** Only taking a lock makes a lease: the taker's, and over five seconds later. */
  lemma LeaseTaken(s: State, a: Action, t: Id)
    requires Enabled(s, a)
    ensures t in Apply(s, a).leases && (t !in s.leases || Apply(s, a).leases[t] != s.leases[t]) ==>
      a.Seating? && Takes(s, a, a.r, t)
    ensures a.Seating? && Takes(s, a, a.r, t) ==> t in Apply(s, a).leases && Apply(s, a).leases[t] == Lease(a.r, s.now + 5000)
  {
  }

  lemma EventLeaseTaken(s: State, a: Action, e: Id)
    requires Enabled(s, a)
    ensures e in Apply(s, a).eventLeases && (e !in s.eventLeases || Apply(s, a).eventLeases[e] != s.eventLeases[e]) ==>
      a.Standing? && TakesEvent(s, a, a.q, e)
    ensures a.Standing? && TakesEvent(s, a, a.q, e) ==>
      e in Apply(s, a).eventLeases && Apply(s, a).eventLeases[e] == Lease(a.q, s.now + 5000)
  {
  }

  // ---- How long a lock lasts ----

  predicate TakenAt(states: seq<State>, acts: seq<Action>, t: Id, k: nat) {
    k < |states| && k < |acts| && acts[k].Seating? && Takes(states[k], acts[k], acts[k].r, t)
  }

  ghost predicate ReleasedBetween(acts: seq<Action>, r: nat, i: nat, j: nat) {
    exists k: nat :: i <= k < j && k < |acts| && acts[k] == Seating(r, Release)
  }

  lemma LeaseAfterStep(states: seq<State>, acts: seq<Action>, r: nat, t: Id, until: nat, k: nat)
    requires Run(states, acts) && Unlocked(states[0]) && k < |acts| && !TakenAt(states, acts, t, k)
    requires r in states[k].calls && TicketOf(states[k].calls, r) == t
    ensures r in states[k + 1].calls && TicketOf(states[k + 1].calls, r) == t
    ensures t !in states[k].leases ==> t !in states[k + 1].leases
    ensures t in states[k].leases && states[k].leases[t] == Lease(r, until) ==>
      if acts[k] == Seating(r, Release) then t !in states[k + 1].leases
      else t in states[k + 1].leases && states[k + 1].leases[t] == Lease(r, until)
  {
    assert StepAt(states, acts, k);
    var s, a := states[k], acts[k];
    LeaseTaken(s, a, t);
    if t in s.leases {
      LeaseStays(s, a, t);
      ReturnedCallsOwnNothing(states, acts, k + 1);
      CallStays(s, a, r);
    } else {
      CallStays(s, a, r);
    }
  }

  lemma CallStays(s: State, a: Action, r: nat)
    requires Enabled(s, a) && r in s.calls
    ensures r in Apply(s, a).calls && TicketOf(Apply(s, a).calls, r) == TicketOf(s.calls, r)
    ensures a == Seating(r, Release) ==> Apply(s, a).calls[r].phase.Returned?
  {
  }

  lemma {:induction false} LeaseOverRun(states: seq<State>, acts: seq<Action>, r: nat, t: Id, i: nat, j: nat)
    requires Run(states, acts) && Unlocked(states[0]) && i < j <= |acts|
    requires acts[i] == Seating(r, Acquire) && r in states[i].calls && TicketOf(states[i].calls, r) == t
    requires forall k: nat | i < k < j :: !TakenAt(states, acts, t, k)
    ensures r in states[j].calls && TicketOf(states[j].calls, r) == t
    ensures if ReleasedBetween(acts, r, i, j) then t !in states[j].leases
            else t in states[j].leases && states[j].leases[t] == Lease(r, states[i].now + 5000)
    decreases j
  {
    var k := j - 1;
    if i == k {
      assert StepAt(states, acts, i);
      LeaseTaken(states[i], acts[i], t);
      CallStays(states[i], acts[i], r);
    } else {
      LeaseOverRun(states, acts, r, t, i, k);
      LeaseAfterStep(states, acts, r, t, states[i].now + 5000, k);
      assert ReleasedBetween(acts, r, i, j) <==> ReleasedBetween(acts, r, i, k) || acts[k] == Seating(r, Release);
    }
  }

  /** A lock taken at step `i`, and by nobody else since, is free at state `j` if and only if its taker has released
      it or five seconds have passed. */
  lemma LockIsExact(states: seq<State>, acts: seq<Action>, r: nat, t: Id, i: nat, j: nat)
    requires Run(states, acts) && Unlocked(states[0]) && i < j <= |acts|
    requires acts[i] == Seating(r, Acquire) && r in states[i].calls && TicketOf(states[i].calls, r) == t
    requires forall k: nat | i < k < j :: !TakenAt(states, acts, t, k)
    ensures (t !in states[j].leases || states[j].leases[t].until <= states[j].now)
       <==> ReleasedBetween(acts, r, i, j) || states[j].now >= states[i].now + 5000
  {
    LeaseOverRun(states, acts, r, t, i, j);
  }

  // ---- The same for events ----

  predicate EventTakenAt(states: seq<State>, acts: seq<Action>, e: Id, k: nat) {
    k < |states| && k < |acts| && acts[k].Standing? && TakesEvent(states[k], acts[k], acts[k].q, e)
  }

  ghost predicate EventReleasedBetween(acts: seq<Action>, q: nat, i: nat, j: nat) {
    exists k: nat :: i <= k < j && k < |acts| && acts[k] == Standing(q, ReleaseEvent)
  }

  lemma StandingCallStays(s: State, a: Action, q: nat)
    requires Enabled(s, a) && q in s.standing
    ensures q in Apply(s, a).standing && Apply(s, a).standing[q].eventId == s.standing[q].eventId
    ensures a == Standing(q, ReleaseEvent) ==> Apply(s, a).standing[q].phase.StandingReturned?
  {
  }

  lemma EventLeaseAfterStep(states: seq<State>, acts: seq<Action>, q: nat, e: Id, until: nat, k: nat)
    requires Run(states, acts) && Unlocked(states[0]) && k < |acts| && !EventTakenAt(states, acts, e, k)
    requires q in states[k].standing && states[k].standing[q].eventId == e
    ensures q in states[k + 1].standing && states[k + 1].standing[q].eventId == e
    ensures e !in states[k].eventLeases ==> e !in states[k + 1].eventLeases
    ensures e in states[k].eventLeases && states[k].eventLeases[e] == Lease(q, until) ==>
      if acts[k] == Standing(q, ReleaseEvent) then e !in states[k + 1].eventLeases
      else e in states[k + 1].eventLeases && states[k + 1].eventLeases[e] == Lease(q, until)
  {
    assert StepAt(states, acts, k);
    var s, a := states[k], acts[k];
    EventLeaseTaken(s, a, e);
    StandingCallStays(s, a, q);
    if e in s.eventLeases {
      EventLeaseStays(s, a, e);
      ReturnedCallsOwnNothing(states, acts, k + 1);
    }
  }

  lemma {:induction false} EventLeaseOverRun(states: seq<State>, acts: seq<Action>, q: nat, e: Id, i: nat, j: nat)
    requires Run(states, acts) && Unlocked(states[0]) && i < j <= |acts|
    requires acts[i] == Standing(q, AcquireEvent) && q in states[i].standing && states[i].standing[q].eventId == e
    requires forall k: nat | i < k < j :: !EventTakenAt(states, acts, e, k)
    ensures q in states[j].standing && states[j].standing[q].eventId == e
    ensures if EventReleasedBetween(acts, q, i, j) then e !in states[j].eventLeases
            else e in states[j].eventLeases && states[j].eventLeases[e] == Lease(q, states[i].now + 5000)
    decreases j
  {
    var k := j - 1;
    if i == k {
      assert StepAt(states, acts, i);
      EventLeaseTaken(states[i], acts[i], e);
      StandingCallStays(states[i], acts[i], q);
    } else {
      EventLeaseOverRun(states, acts, q, e, i, k);
      EventLeaseAfterStep(states, acts, q, e, states[i].now + 5000, k);
      assert EventReleasedBetween(acts, q, i, j) <==> EventReleasedBetween(acts, q, i, k) || acts[k] == Standing(q, ReleaseEvent);
    }
  }

  /** The same for the lock of an event. */
  lemma EventLockIsExact(states: seq<State>, acts: seq<Action>, q: nat, e: Id, i: nat, j: nat)
    requires Run(states, acts) && Unlocked(states[0]) && i < j <= |acts|
    requires acts[i] == Standing(q, AcquireEvent) && q in states[i].standing && states[i].standing[q].eventId == e
    requires forall k: nat | i < k < j :: !EventTakenAt(states, acts, e, k)
    ensures (e !in states[j].eventLeases || states[j].eventLeases[e].until <= states[j].now)
       <==> EventReleasedBetween(acts, q, i, j) || states[j].now >= states[i].now + 5000
  {
    EventLeaseOverRun(states, acts, q, e, i, j);
  }
}
