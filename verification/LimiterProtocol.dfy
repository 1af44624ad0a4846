/**
 The blocking concurrency limiter as a state machine. A step is one critical
 section of the limiter's mutex, or a wake-up of a thread that waits on the
 condition variable. Any number of threads run, in any interleaving; the fast
 path may overtake waiters; wake-ups may be spurious; a timeout may race a
 notification.
 */
module LimiterProtocol {
  import opened Sums
  import opened Wrappers

  /** Where a thread stands. `Parked` threads wait on the condition variable. `Woken`
      threads (by a notification or spuriously) and `Expired` threads (by their timeout)
      have left it and have not yet re-taken the mutex. */
  datatype Phase =
    | Idle
    | Parked(timed: bool)
    | Woken(timed: bool, notified: bool)
    | Expired
    | Holding

  /** `inflight` .. `rejected` are the fields behind the mutex (integers, so that an
      underflow would show); `released` and `calls` are history. */
  datatype State = State(
    cap: nat,
    queueCap: nat,
    inflight: int,
    queued: int,
    acquired: int,
    rejected: int,
    released: nat,
    calls: nat,
    threads: seq<Phase>)

  /**
   - Enter: `acquire` (or `acquire_timeout` when timed) from the lock to the first wait
     or return; `expired` says that no time remains at the top of the timed loop.
   - Spurious, Expire: a thread leaves the condition variable without a notification.
   - Resume: such a thread re-takes the mutex, re-checks, and is admitted, gives up or
     waits again; `late` says that the wait reports a timeout or that no time remains.
   - Release: a guard is dropped; `woken` is the waiter that `notify_one` picks.
   */
  datatype Step =
    | Enter(t: nat, timed: bool, expired: bool)
    | Spurious(t: nat)
    | Expire(t: nat)
    | Resume(t: nat, late: bool)
    | Release(t: nat, woken: Option<nat>)

  function Init(cap: nat, queueCap: nat, n: nat): State {
    State(cap, queueCap, 0, 0, 0, 0, 0, 0, seq(n, _ => Idle))
  }

  predicate NoneParked(s: State) {
    forall i | 0 <= i < |s.threads| :: !s.threads[i].Parked?
  }

  predicate Enabled(s: State, step: Step) {
    && step.t < |s.threads|
    && var p := s.threads[step.t];
       match step
       case Enter(_, timed, expired) => p.Idle? && (expired ==> timed)
       case Spurious(_) => p.Parked?
       case Expire(_) => p.Parked? && p.timed
       case Resume(_, late) => (p.Woken? && (late ==> p.timed)) || (p.Expired? && late)
       case Release(_, None) => p.Holding? && NoneParked(s)
       case Release(_, Some(u)) => p.Holding? && u < |s.threads| && s.threads[u].Parked?
  }

  function Reject(s: State, t: nat): State
    requires t < |s.threads|
  {
    s.(rejected := s.rejected + 1, threads := s.threads[t := Idle])
  }

  function Admit(s: State, t: nat): State
    requires t < |s.threads|
  {
    s.(inflight := s.inflight + 1, acquired := s.acquired + 1, threads := s.threads[t := Holding])
  }

  function Apply(s: State, step: Step): State
    requires Enabled(s, step)
  {
    match step
    case Enter(t, timed, expired) =>
      var c := s.(calls := s.calls + 1);
      if c.cap == 0 then Reject(c, t)
      else if c.inflight < c.cap then Admit(c, t)
      else if c.queued >= c.queueCap then Reject(c, t)
      else if expired then Reject(c, t)
      else c.(queued := c.queued + 1, threads := c.threads[t := Parked(timed)])
    case Spurious(t) => s.(threads := s.threads[t := Woken(s.threads[t].timed, false)])
    case Expire(t) => s.(threads := s.threads[t := Expired])
    case Resume(t, late) =>
      if s.inflight < s.cap then Admit(s.(queued := s.queued - 1), t)
      else if late then Reject(s.(queued := s.queued - 1), t)
      else s.(threads := s.threads[t := Parked(s.threads[t].timed)])
    case Release(t, woken) =>
      var r := s.(inflight := s.inflight - 1, released := s.released + 1, threads := s.threads[t := Idle]);
      match woken
      case None => r
      case Some(u) => r.(threads := r.threads[u := Woken(r.threads[u].timed, true)])
  }

  predicate CanRun(s: State, steps: seq<Step>)
    decreases |steps|
  {
    steps != [] ==> Enabled(s, steps[0]) && CanRun(Apply(s, steps[0]), steps[1..])
  }

  function Run(s: State, steps: seq<Step>): State
    requires CanRun(s, steps)
    decreases |steps|
  {
    if steps == [] then s else Run(Apply(s, steps[0]), steps[1..])
  }

  lemma {:induction false} RunSnoc(s: State, steps: seq<Step>, step: Step)
    requires CanRun(s, steps) && Enabled(Run(s, steps), step)
    ensures CanRun(s, steps + [step]) && Run(s, steps + [step]) == Apply(Run(s, steps), step)
    decreases |steps|
  {
    if steps == [] {
      assert CanRun(Apply(s, step), []);
    } else {
      RunSnoc(Apply(s, steps[0]), steps[1..], step);
      assert (steps + [step])[1..] == steps[1..] + [step];
    }
  }

  ghost predicate Reachable(s: State) {
    exists cap: nat, queueCap: nat, n: nat, steps: seq<Step> ::
      CanRun(Init(cap, queueCap, n), steps) && Run(Init(cap, queueCap, n), steps) == s
  }

  // ---------------------------------------------------------------- invariant

  function IsHolding(p: Phase): nat { if p.Holding? then 1 else 0 }
  function IsQueued(p: Phase): nat { if p.Parked? || p.Woken? || p.Expired? then 1 else 0 }
  function IsParked(p: Phase): nat { if p.Parked? then 1 else 0 }
  function IsNotified(p: Phase): nat { if p.Woken? && p.notified then 1 else 0 }

  ghost predicate Counted(s: State) {
    && s.inflight == Sum(IsHolding, s.threads)
    && s.queued == Sum(IsQueued, s.threads)
    && s.inflight <= s.cap
    && s.queued <= s.queueCap
    && s.acquired == s.inflight + s.released
    && s.calls == s.acquired + s.rejected + s.queued
    && (s.cap == 0 ==> s.queued == 0)
  }

  /** While someone is parked, every slot is taken or promised to a notified waiter. */
  ghost predicate NoLostWakeup(s: State) {
    Sum(IsParked, s.threads) > 0 ==> s.inflight + Sum(IsNotified, s.threads) >= s.cap
  }

  ghost predicate Inv(s: State) {
    && Counted(s)
    && s.rejected >= 0
    && NoLostWakeup(s)
  }

  /** How replacing one thread's phase moves the four counts. */
  lemma MoveThread(s: seq<Phase>, t: nat, p: Phase)
    requires t < |s|
    ensures Sum(IsHolding, s[t := p]) == Sum(IsHolding, s) - IsHolding(s[t]) + IsHolding(p)
    ensures Sum(IsQueued, s[t := p]) == Sum(IsQueued, s) - IsQueued(s[t]) + IsQueued(p)
    ensures Sum(IsParked, s[t := p]) == Sum(IsParked, s) - IsParked(s[t]) + IsParked(p)
    ensures Sum(IsNotified, s[t := p]) == Sum(IsNotified, s) - IsNotified(s[t]) + IsNotified(p)
    ensures Sum(IsHolding, s) >= IsHolding(s[t]) && Sum(IsQueued, s) >= IsQueued(s[t])
  {
    SumUpdate(IsHolding, s, t, p);
    SumUpdate(IsQueued, s, t, p);
    SumUpdate(IsParked, s, t, p);
    SumUpdate(IsNotified, s, t, p);
    SumAtLeast(IsHolding, s, t);
    SumAtLeast(IsQueued, s, t);
  }

  lemma InitInv(cap: nat, queueCap: nat, n: nat)
    ensures Inv(Init(cap, queueCap, n))
  {
    var s := Init(cap, queueCap, n);
    SumZero(IsHolding, s.threads);
    SumZero(IsQueued, s.threads);
    SumZero(IsParked, s.threads);
  }

  lemma EnterKeepsInv(s: State, t: nat, timed: bool, expired: bool)
    requires Inv(s) && Enabled(s, Enter(t, timed, expired))
    ensures Inv(Apply(s, Enter(t, timed, expired)))
  {
    var s' := Apply(s, Enter(t, timed, expired));
    MoveThread(s.threads, t, s'.threads[t]);
  }

  lemma WakeKeepsInv(s: State, step: Step)
    requires Inv(s) && Enabled(s, step) && (step.Spurious? || step.Expire?)
    ensures Inv(Apply(s, step))
  {
    MoveThread(s.threads, step.t, Apply(s, step).threads[step.t]);
  }

  /** A waiter that re-checks in vain found every slot taken, so it may park again. */
  lemma ResumeKeepsInv(s: State, t: nat, late: bool)
    requires Inv(s) && Enabled(s, Resume(t, late))
    ensures Inv(Apply(s, Resume(t, late)))
  {
    var s' := Apply(s, Resume(t, late));
    MoveThread(s.threads, t, s'.threads[t]);
  }

  /** A release hands the freed slot's promise to one parked waiter, if there is one. */
  lemma ReleaseKeepsInv(s: State, t: nat, woken: Option<nat>)
    requires Inv(s) && Enabled(s, Release(t, woken))
    ensures Inv(Apply(s, Release(t, woken)))
  {
    MoveThread(s.threads, t, Idle);
    match woken
    case None => SumZero(IsParked, s.threads);
    case Some(u) => MoveThread(s.threads[t := Idle], u, Woken(s.threads[u].timed, true));
  }

  lemma StepKeepsInv(s: State, step: Step)
    requires Inv(s) && Enabled(s, step)
    ensures Inv(Apply(s, step))
  {
    match step
    case Enter(t, timed, expired) => EnterKeepsInv(s, t, timed, expired);
    case Spurious(_) => WakeKeepsInv(s, step);
    case Expire(_) => WakeKeepsInv(s, step);
    case Resume(t, late) => ResumeKeepsInv(s, t, late);
    case Release(t, woken) => ReleaseKeepsInv(s, t, woken);
  }

  lemma {:induction false} RunKeepsInv(s: State, steps: seq<Step>)
    requires Inv(s) && CanRun(s, steps)
    ensures Inv(Run(s, steps))
    decreases |steps|
  {
    if steps != [] {
      StepKeepsInv(s, steps[0]);
      RunKeepsInv(Apply(s, steps[0]), steps[1..]);
    }
  }

  lemma ReachableInv(s: State)
    requires Reachable(s)
    ensures Inv(s)
  {
    var cap: nat, queueCap: nat, n: nat, steps: seq<Step> :|
      CanRun(Init(cap, queueCap, n), steps) && Run(Init(cap, queueCap, n), steps) == s;
    InitInv(cap, queueCap, n);
    RunKeepsInv(Init(cap, queueCap, n), steps);
  }
}
