/** What the limiter promises in every reachable state and over every run. */
module LimiterTheorems {
  import opened Sums
  import opened Wrappers
  import opened LimiterProtocol

  // ---------------------------------------------------------------- safety

  /** The counters are what they claim to count, within their caps, and no release can underflow. */
  lemma CountersExact(s: State)
    requires Reachable(s)
    ensures s.inflight == Sum(IsHolding, s.threads) <= s.cap
    ensures s.queued == Sum(IsQueued, s.threads) <= s.queueCap
    ensures s.acquired == s.inflight + s.released
    ensures s.calls == s.acquired + s.rejected + s.queued
    ensures forall t, woken | Enabled(s, Release(t, woken)) :: s.inflight > 0
  {
    ReachableInv(s);
    forall t, woken | Enabled(s, Release(t, woken)) ensures s.inflight > 0 {
      SumAtLeast(IsHolding, s.threads, t);
    }
  }

  /** If a waiter is parked although a slot is free, some other waiter has been notified and
      will take the slot or pass it on. */
  lemma FreeSlotIsPromised(s: State, parked: nat) returns (u: nat)
    requires Reachable(s)
    requires parked < |s.threads| && s.threads[parked].Parked? && s.inflight < s.cap
    ensures s.inflight + Sum(IsNotified, s.threads) >= s.cap
    ensures u < |s.threads| && s.threads[u].Woken? && s.threads[u].notified
  {
    ReachableInv(s);
    SumAtLeast(IsParked, s.threads, parked);
    u := SumWitness(IsNotified, s.threads);
  }

  /** `acquire` is refused exactly when all slots and all queue places are taken. */
  lemma ExactAdmission(s: State, t: nat)
    requires Reachable(s) && s.cap > 0 && Enabled(s, Enter(t, false, false))
    ensures
      var s' := Apply(s, Enter(t, false, false));
      && (s'.rejected > s.rejected <==> s.inflight + s.queued == s.cap + s.queueCap)
      && (s'.rejected > s.rejected <==> s'.threads[t].Idle?)
      && (s'.threads[t].Holding? <==> s.inflight < s.cap)
  {
    ReachableInv(s);
  }

  /** Whatever the step, and after however many turns of the wait loop, a refusal happens
      only while every slot is taken; a refusal after queueing needs a timed caller. */
  lemma RejectionMeansFull(s: State, step: Step)
    requires Reachable(s) && s.cap > 0 && Enabled(s, step)
    requires Apply(s, step).rejected != s.rejected
    ensures s.inflight == s.cap && Apply(s, step).inflight == s.cap
    ensures Apply(s, step).rejected == s.rejected + 1
    ensures step.Enter? || (step.Resume? && (s.threads[step.t].Expired? || s.threads[step.t].timed))
    ensures step.Enter? && !step.expired ==> s.queued == s.queueCap
  {
    ReachableInv(s);
  }

  // ---------------------------------------------------------------- threads and slots

  function IsBusy(p: Phase): nat { IsHolding(p) + IsQueued(p) }

  lemma {:induction false} HoldersAndWaiters(s: seq<Phase>)
    ensures Sum(IsBusy, s) == Sum(IsHolding, s) + Sum(IsQueued, s) <= |s|
  {
    if s != [] {
      HoldersAndWaiters(s[..|s| - 1]);
    }
  }

  /** Beside a thread that is about to enter, fewer threads than there are hold a slot or wait. */
  lemma NewcomerIsNotCounted(s: seq<Phase>, t: nat)
    requires t < |s| && s[t].Idle?
    ensures Sum(IsHolding, s) + Sum(IsQueued, s) < |s|
  {
    SumUpdate(IsBusy, s, t, Holding);
    HoldersAndWaiters(s);
    HoldersAndWaiters(s[t := Holding]);
  }

  ghost predicate WaitingMeansCrowded(s: State) {
    s.queued > 0 ==> |s.threads| > s.cap
  }

  lemma StepKeepsCrowded(s: State, step: Step)
    requires Inv(s) && Enabled(s, step) && WaitingMeansCrowded(s)
    ensures WaitingMeansCrowded(Apply(s, step))
  {
    if step.Enter? {
      NewcomerIsNotCounted(s.threads, step.t);
    }
  }

  lemma {:induction false} RunKeepsCrowded(s: State, steps: seq<Step>)
    requires Inv(s) && CanRun(s, steps) && WaitingMeansCrowded(s)
    ensures WaitingMeansCrowded(Run(s, steps))
    decreases |steps|
  {
    if steps != [] {
      StepKeepsInv(s, steps[0]);
      StepKeepsCrowded(s, steps[0]);
      RunKeepsCrowded(Apply(s, steps[0]), steps[1..]);
    }
  }

  /** Nobody ever waits unless there are more threads than slots. */
  lemma WaitersOutnumberSlots(s: State)
    requires Reachable(s) && s.queued > 0
    ensures |s.threads| > s.cap > 0
  {
    ReachableInv(s);
    var cap: nat, queueCap: nat, n: nat, steps: seq<Step> :|
      CanRun(Init(cap, queueCap, n), steps) && Run(Init(cap, queueCap, n), steps) == s;
    InitInv(cap, queueCap, n);
    RunKeepsCrowded(Init(cap, queueCap, n), steps);
  }

  // ---------------------------------------------------------------- overtaking

  function IsIdle(p: Phase): nat { if p.Idle? then 1 else 0 }

  /** Idle threads and holders together could fill the slots. */
  ghost predicate NewcomersAtHand(s: State) {
    |s.threads| >= s.cap ==> Sum(IsIdle, s.threads) + s.inflight >= s.cap
  }

  lemma StepKeepsNewcomers(s: State, step: Step)
    requires Inv(s) && Enabled(s, step) && NewcomersAtHand(s)
    ensures NewcomersAtHand(Apply(s, step))
  {
    var s' := Apply(s, step);
    match step
    case Release(t, woken) =>
      SumUpdate(IsIdle, s.threads, t, Idle);
      if woken.Some? {
        SumUpdate(IsIdle, s.threads[t := Idle], woken.value, s'.threads[woken.value]);
      }
    case _ => SumUpdate(IsIdle, s.threads, step.t, s'.threads[step.t]);
  }

  lemma {:induction false} RunKeepsNewcomers(s: State, steps: seq<Step>)
    requires Inv(s) && CanRun(s, steps) && NewcomersAtHand(s)
    ensures NewcomersAtHand(Run(s, steps))
    decreases |steps|
  {
    if steps != [] {
      StepKeepsInv(s, steps[0]);
      StepKeepsNewcomers(s, steps[0]);
      RunKeepsNewcomers(Apply(s, steps[0]), steps[1..]);
    }
  }

  lemma {:induction false} AllIdleCounted(s: seq<Phase>)
    requires forall i | 0 <= i < |s| :: s[i].Idle?
    ensures Sum(IsIdle, s) == |s|
  {
    if s != [] {
      AllIdleCounted(s[..|s| - 1]);
    }
  }

  lemma ReachableNewcomers(s: State)
    requires Reachable(s)
    ensures NewcomersAtHand(s)
  {
    var cap: nat, queueCap: nat, n: nat, steps: seq<Step> :|
      CanRun(Init(cap, queueCap, n), steps) && Run(Init(cap, queueCap, n), steps) == s;
    InitInv(cap, queueCap, n);
    AllIdleCounted(Init(cap, queueCap, n).threads);
    RunKeepsNewcomers(Init(cap, queueCap, n), steps);
  }

  /** A run of threads other than `u`, from `s` to `e`. */
  ghost predicate OthersLead(s: State, steps: seq<Step>, e: State, u: nat) {
    && CanRun(s, steps) && Run(s, steps) == e
    && (forall i | 0 <= i < |steps| :: steps[i].t != u)
    && u < |s.threads| == |e.threads| && e.threads[u] == s.threads[u] && e.cap == s.cap
  }

  lemma OthersLeadOn(s: State, step: Step, rest: seq<Step>, e: State, u: nat)
    requires Enabled(s, step) && step.t != u && u < |s.threads|
    requires Apply(s, step).threads[u] == s.threads[u] && OthersLead(Apply(s, step), rest, e, u)
    ensures OthersLead(s, [step] + rest, e, u)
  {
    assert ([step] + rest)[1..] == rest;
  }

  /** Every step is an arrival at the limiter. */
  predicate Arrivals(steps: seq<Step>) {
    forall i | 0 <= i < |steps| :: steps[i].Enter?
  }

  /** Idle threads fill the slots one after the other. */
  lemma {:induction false} NewcomersTakeAllSlots(s: State, u: nat) returns (steps: seq<Step>, e: State)
    requires Inv(s) && NewcomersAtHand(s) && s.cap <= |s.threads| && u < |s.threads| && !s.threads[u].Idle?
    ensures OthersLead(s, steps, e, u) && Arrivals(steps) && e.inflight == e.cap
    decreases s.cap - s.inflight
  {
    if s.inflight == s.cap {
      steps, e := [], s;
    } else {
      var v := SumWitness(IsIdle, s.threads);
      var enter := Enter(v, false, false);
      StepKeepsInv(s, enter);
      StepKeepsNewcomers(s, enter);
      var rest;
      rest, e := NewcomersTakeAllSlots(Apply(s, enter), u);
      OthersLeadOn(s, enter, rest, e, u);
      steps := [enter] + rest;
    }
  }

  /** A release reserves nothing for the waiter that it notifies: from every reachable state, and
      for every woken waiter, newcomers alone can take all slots before it re-checks, so that it has
      to wait again. */
  lemma WaiterMayBeOvertaken(s: State, u: nat) returns (steps: seq<Step>, e: State)
    requires Reachable(s) && u < |s.threads| && s.threads[u].Woken?
    ensures OthersLead(s, steps, e, u) && Arrivals(steps) && e.inflight == e.cap
    ensures Enabled(e, Resume(u, false)) && Apply(e, Resume(u, false)).threads[u].Parked?
  {
    ReachableInv(s);
    ReachableNewcomers(s);
    SumAtLeast(IsQueued, s.threads, u);
    WaitersOutnumberSlots(s);
    steps, e := NewcomersTakeAllSlots(s, u);
  }

  /** Just as well they can leave it a slot: which of the two happens is up to the schedule alone. */
  lemma WaiterMayBeServed(s: State, u: nat) returns (steps: seq<Step>, e: State)
    requires Reachable(s) && u < |s.threads| && s.threads[u].Woken?
    ensures OthersLead(s, steps, e, u)
    ensures Enabled(e, Resume(u, false)) && Apply(e, Resume(u, false)).threads[u].Holding?
  {
    ReachableInv(s);
    steps, e := [], s;
    if s.inflight == s.cap {
      SumAtLeast(IsQueued, s.threads, u);
      var h := SumWitness(IsHolding, s.threads);
      var release := Release(h, None);
      if p: nat :| p < |s.threads| && s.threads[p].Parked? {
        release := Release(h, Some(p));
      }
      e := Apply(s, release);
      assert CanRun(e, []);
      OthersLeadOn(s, release, [], e, u);
      steps := [release] + [];
    }
  }

  // ---------------------------------------------------------------- drain

  /** No new arrivals and no spurious wake-ups. */
  predicate DrainStep(step: Step) {
    match step
    case Enter(_, _, _) => false
    case Spurious(_) => false
    case Expire(_) => true
    case Resume(_, _) => true
    case Release(_, _) => true
  }

  predicate DrainRun(s: State, steps: seq<Step>) {
    CanRun(s, steps) && forall i | 0 <= i < |steps| :: DrainStep(steps[i])
  }

  predicate AllIdle(s: State) {
    forall i | 0 <= i < |s.threads| :: s.threads[i].Idle?
  }

  /** Work a thread still owes: twice its remaining stages, plus one if a notification is pending. */
  function Owed(p: Phase): nat {
    match p
    case Idle => 0
    case Holding => 2
    case Expired => 4
    case Parked(_) => 6
    case Woken(_, _) => 7
  }

  function Rank(s: State): nat {
    Sum(Owed, s.threads)
  }

  /** Every drain step pays off some of the debt; this bounds the length of every drain. */
  lemma DrainStepPays(s: State, step: Step)
    requires Inv(s) && Enabled(s, step) && DrainStep(step)
    ensures Rank(Apply(s, step)) < Rank(s)
  {
    var s' := Apply(s, step);
    match step
    case Expire(t) => SumUpdate(Owed, s.threads, t, s'.threads[t]);
    case Resume(t, _) => SumUpdate(Owed, s.threads, t, s'.threads[t]);
    case Release(t, woken) =>
      SumUpdate(Owed, s.threads, t, Idle);
      if woken.Some? {
        SumUpdate(Owed, s.threads[t := Idle], woken.value, s'.threads[woken.value]);
      }
  }

  lemma {:induction false} DrainPays(s: State, steps: seq<Step>)
    requires Inv(s) && DrainRun(s, steps)
    ensures Rank(Run(s, steps)) + |steps| <= Rank(s)
    decreases |steps|
  {
    if steps != [] {
      StepKeepsInv(s, steps[0]);
      DrainStepPays(s, steps[0]);
      DrainPays(Apply(s, steps[0]), steps[1..]);
    }
  }

  /** If waiters are parked, someone holds a slot or is about to re-check. */
  lemma SomeoneActive(s: State, parked: nat) returns (u: nat)
    requires Inv(s) && parked < |s.threads| && s.threads[parked].Parked?
    ensures u < |s.threads| && (s.threads[u].Holding? || s.threads[u].Woken? || s.threads[u].Expired?)
  {
    SumAtLeast(IsQueued, s.threads, parked);
    SumAtLeast(IsParked, s.threads, parked);
    if s.inflight > 0 {
      u := SumWitness(IsHolding, s.threads);
    } else {
      u := SumWitness(IsNotified, s.threads);
    }
  }

  /** A state with an unfinished caller always has a drain step: there is no deadlock. */
  lemma DrainNeverSticks(s: State) returns (step: Step)
    requires Inv(s) && !AllIdle(s)
    ensures Enabled(s, step) && DrainStep(step)
  {
    var i: nat :| i < |s.threads| && !s.threads[i].Idle?;
    if s.threads[i].Parked? {
      i := SomeoneActive(s, i);
    }
    if s.threads[i].Woken? || s.threads[i].Expired? {
      step := Resume(i, s.threads[i].Expired?);
    } else if NoneParked(s) {
      step := Release(i, None);
    } else {
      var u: nat :| u < |s.threads| && s.threads[u].Parked?;
      step := Release(i, Some(u));
    }
  }

  /** Whether thread `t` holds a slot at some point of the run. */
  predicate EverHolds(s: State, steps: seq<Step>, t: nat)
    requires CanRun(s, steps) && t < |s.threads|
    decreases |steps|
  {
    s.threads[t].Holding? || (steps != [] && EverHolds(Apply(s, steps[0]), steps[1..], t))
  }

  predicate WaitsUntimed(p: Phase) {
    (p.Parked? || p.Woken?) && !p.timed
  }

  /** A caller of `acquire` that has queued leaves the queue only with a slot. */
  lemma {:induction false} UntimedWaiterIsAdmitted(s: State, steps: seq<Step>, t: nat)
    requires CanRun(s, steps) && t < |s.threads| && WaitsUntimed(s.threads[t])
    requires |Run(s, steps).threads| == |s.threads|
    requires Run(s, steps).threads[t].Idle?
    ensures EverHolds(s, steps, t)
    decreases |steps|
  {
    if steps != [] && !Apply(s, steps[0]).threads[t].Holding? {
      UntimedWaiterIsAdmitted(Apply(s, steps[0]), steps[1..], t);
    }
  }

  lemma {:induction false} RunKeepsSize(s: State, steps: seq<Step>)
    requires CanRun(s, steps)
    ensures |Run(s, steps).threads| == |s.threads|
    decreases |steps|
  {
    if steps != [] {
      RunKeepsSize(Apply(s, steps[0]), steps[1..]);
    }
  }

  /** From every reachable state, every drain is at most seven steps per thread long, and one
      that cannot be continued has returned every slot and admitted every untimed waiter. */
  lemma {:induction false} Drain(s: State, steps: seq<Step>)
    requires Reachable(s) && DrainRun(s, steps)
    ensures |steps| <= 7 * |s.threads|
    ensures
      var e := Run(s, steps);
      (forall step | Enabled(e, step) :: !DrainStep(step)) ==>
        && AllIdle(e) && e.inflight == 0 && e.queued == 0
        && e.calls == e.acquired + e.rejected && e.acquired == e.released
        && (forall t | 0 <= t < |s.threads| && WaitsUntimed(s.threads[t]) :: EverHolds(s, steps, t))
  {
    ReachableInv(s);
    DrainPays(s, steps);
    SumBound(Owed, s.threads, 7);
    var e := Run(s, steps);
    RunKeepsInv(s, steps);
    RunKeepsSize(s, steps);
    if forall step | Enabled(e, step) :: !DrainStep(step) {
      if !AllIdle(e) {
        var step := DrainNeverSticks(e);
      }
      SumZero(IsHolding, e.threads);
      SumZero(IsQueued, e.threads);
      forall t | 0 <= t < |s.threads| && WaitsUntimed(s.threads[t]) ensures EverHolds(s, steps, t) {
        UntimedWaiterIsAdmitted(s, steps, t);
      }
    }
  }

  /** Such a complete drain exists from every reachable state. */
  lemma {:induction false} DrainCompletes(s: State) returns (steps: seq<Step>)
    requires Inv(s)
    ensures DrainRun(s, steps) && AllIdle(Run(s, steps))
    decreases Rank(s)
  {
    if AllIdle(s) {
      steps := [];
    } else {
      var step := DrainNeverSticks(s);
      StepKeepsInv(s, step);
      DrainStepPays(s, step);
      var rest := DrainCompletes(Apply(s, step));
      steps := [step] + rest;
      assert steps[1..] == rest;
    }
  }
}
