/**
 The limiter object with the fields that its mutex guards. Each method is a run of
 `LimiterProtocol`: while a caller waits on the condition variable, other threads
 take arbitrary steps, which the `schedule` argument supplies.
 */
module BlockingLimiterObject {
  import opened Sums
  import opened Wrappers
  import opened LimiterProtocol

  datatype Outcome = Granted | Refused | Waiting

  /** What happens while a caller waits: a step of another thread (or of the condition
      variable), or the caller itself re-takes the mutex. `timedOut` is the result of
      the timed wait, `expired` says that no time remains at the top of the loop. */
  datatype Turn = Other(step: Step) | Back(timedOut: bool, expired: bool)

  /** The thread whose code performs a step; a wake-up belongs to the environment. */
  predicate ByOther(step: Step, t: nat) {
    step.Spurious? || step.Expire? || step.t != t
  }

  predicate Schedulable(schedule: seq<Turn>, t: nat) {
    forall k | 0 <= k < |schedule| && schedule[k].Other? :: ByOther(schedule[k].step, t)
  }

  /** Inside `acquire_timeout` at the top of its loop, when a caller has just been counted as queued: how
      its first critical section will end. */
  lemma FirstSectionEnds(pre: State, now: State, t: nat, expired: bool)
    requires Enabled(pre, Enter(t, true, expired)) && pre.inflight == pre.cap > 0 && pre.queued < pre.queueCap
    requires now == pre.(calls := pre.calls + 1, queued := pre.queued + 1)
    ensures Apply(pre, Enter(t, true, expired)) ==
      if expired then Reject(now.(queued := now.queued - 1), t) else now.(threads := now.threads[t := Parked(true)])
  {
  }

  /** Thread phases of a caller that has joined the queue. */
  predicate InQueue(p: Phase, timed: bool) {
    p == Parked(timed) || (p.Woken? && p.timed == timed) || (p.Expired? && timed)
  }

  ghost predicate Leads(start: State, steps: seq<Step>, end: State) {
    CanRun(start, steps) && Run(start, steps) == end
  }

  lemma LeadsOn(start: State, steps: seq<Step>, mid: State, step: Step)
    requires Leads(start, steps, mid) && Enabled(mid, step) && Inv(mid)
    ensures Leads(start, steps + [step], Apply(mid, step)) && Inv(Apply(mid, step))
  {
    RunSnoc(start, steps, step);
    StepKeepsInv(mid, step);
  }

  /** Nothing that others do takes a waiter out of the queue. */
  lemma OthersKeepWaiter(s: State, step: Step, t: nat, timed: bool)
    requires Enabled(s, step) && ByOther(step, t)
    requires t < |s.threads| && InQueue(s.threads[t], timed)
    ensures |Apply(s, step).threads| == |s.threads| && InQueue(Apply(s, step).threads[t], timed)
  {
  }

  /** No step reads the history counters; each only adds to them. */
  lemma HistoryIsPassive(s: State, step: Step)
    requires Enabled(s, step)
    ensures
      var blank := s.(released := 0, calls := 0);
      && Enabled(blank, step)
      && var next := Apply(blank, step);
         Apply(s, step) == next.(released := s.released + next.released, calls := s.calls + next.calls)
  {
  }

  // ---------------------------------------------------------------- what a schedule makes of a wait

  /** One turn while the caller goes on waiting: a possible step of another thread happens, and the
      caller itself, if it has been woken, re-checks in vain and parks again. */
  function TakeTurn(m: State, t: nat, turn: Turn): (m': State)
    requires t < |m.threads|
    ensures |m'.threads| == |m.threads|
  {
    match turn
    case Other(step) => if Enabled(m, step) then Apply(m, step) else m
    case Back(_, _) => if Enabled(m, Resume(t, false)) then Apply(m, Resume(t, false)) else m
  }

  /** The state after the first `i` turns of a schedule. */
  function AfterTurns(m: State, t: nat, schedule: seq<Turn>, i: nat): (m': State)
    requires t < |m.threads| && i <= |schedule|
    ensures |m'.threads| == |m.threads|
    decreases i
  {
    if i == 0 then m else TakeTurn(AfterTurns(m, t, schedule, i - 1), t, schedule[i - 1])
  }

  /** The wait ends when the woken caller finds a free slot, or, if timed, finds that its time is up. */
  predicate WaitEnds(m: State, t: nat, timed: bool, turn: Turn)
    requires t < |m.threads|
  {
    && turn.Back? && !m.threads[t].Parked?
    && (m.inflight < m.cap || (timed && (turn.timedOut || turn.expired || m.threads[t].Expired?)))
  }

  /** None of the first `i` turns ends the wait. */
  ghost predicate Unended(queued: State, t: nat, timed: bool, schedule: seq<Turn>, i: nat)
    requires t < |queued.threads| && i <= |schedule|
    decreases i
  {
    i > 0 ==>
      && Unended(queued, t, timed, schedule, i - 1)
      && !WaitEnds(AfterTurns(queued, t, schedule, i - 1), t, timed, schedule[i - 1])
  }

  lemma {:induction false} UnendedTurn(queued: State, t: nat, timed: bool, schedule: seq<Turn>, i: nat, k: nat)
    requires t < |queued.threads| && k < i <= |schedule| && Unended(queued, t, timed, schedule, i)
    ensures !WaitEnds(AfterTurns(queued, t, schedule, k), t, timed, schedule[k])
    decreases i
  {
    if k < i - 1 {
      UnendedTurn(queued, t, timed, schedule, i - 1, k);
    }
  }

  /** After `i` turns, none of which has ended the wait, the limiter is in the state `now`. */
  ghost predicate WaitsOn(queued: State, t: nat, timed: bool, schedule: seq<Turn>, i: nat, now: State) {
    && t < |queued.threads| && i <= |schedule|
    && now == AfterTurns(queued, t, schedule, i) && Unended(queued, t, timed, schedule, i)
  }

  lemma NoTurnYet(queued: State, t: nat, timed: bool, schedule: seq<Turn>)
    requires t < |queued.threads|
    ensures WaitsOn(queued, t, timed, schedule, 0, queued)
  {
  }

  lemma OneMoreTurn(queued: State, t: nat, timed: bool, schedule: seq<Turn>, i: nat, now: State)
    requires WaitsOn(queued, t, timed, schedule, i, now) && i < |schedule|
    requires !WaitEnds(now, t, timed, schedule[i])
    ensures WaitsOn(queued, t, timed, schedule, i + 1, TakeTurn(now, t, schedule[i]))
  {
  }

  /** What a caller that joined the queue in the state `queued` gets under a schedule, and how it leaves
      the limiter: it waits through all turns that do not end its wait. If none does, it still waits.
      Otherwise it gets a slot if one is free at the turn that ends the wait, and gives up if not. */
  ghost predicate WaitResult(queued: State, t: nat, timed: bool, schedule: seq<Turn>, used: nat,
                             r: Outcome, end: State) {
    && t < |queued.threads| && used <= |schedule|
    && var m := AfterTurns(queued, t, schedule, used);
       && WaitsOn(queued, t, timed, schedule, used, m)
       && if used == |schedule| then r == Waiting && end == m
          else
            && WaitEnds(m, t, timed, schedule[used])
            && r == (if m.inflight < m.cap then Granted else Refused)
            && var late := timed && (schedule[used].timedOut || schedule[used].expired || m.threads[t].Expired?);
               Enabled(m, Resume(t, late)) && end == Apply(m, Resume(t, late))
  }

  /** Before its wait ends a caller misses nothing: at every turn of its own it is asleep, or it finds
      all slots taken with its time not up. */
  lemma MissesNothing(queued: State, t: nat, timed: bool, schedule: seq<Turn>, used: nat,
                      r: Outcome, end: State, k: nat)
    requires WaitResult(queued, t, timed, schedule, used, r, end) && k < used && schedule[k].Back?
    ensures
      var m := AfterTurns(queued, t, schedule, k);
      || m.threads[t].Parked?
      || (m.inflight >= m.cap && (timed ==> !schedule[k].timedOut && !schedule[k].expired && !m.threads[t].Expired?))
  {
    UnendedTurn(queued, t, timed, schedule, used, k);
  }

  /** It waits on only if all turns are over. Otherwise it has been woken, and gets a slot if one is
      free; it gives up only on full slots with its time up, which an untimed caller's never is. */
  lemma HowWaitsEnd(queued: State, t: nat, timed: bool, schedule: seq<Turn>, used: nat, r: Outcome, end: State)
    requires WaitResult(queued, t, timed, schedule, used, r, end)
    ensures used <= |schedule| && (r == Waiting <==> used == |schedule|)
    ensures used < |schedule| ==>
      var m, turn := AfterTurns(queued, t, schedule, used), schedule[used];
      && turn.Back? && !m.threads[t].Parked? && (r == Granted <==> m.inflight < m.cap)
      && (r == Refused ==> timed && (turn.timedOut || turn.expired || m.threads[t].Expired?) && m.inflight >= m.cap)
  {
  }

  /** Every step of another thread that is possible at its turn happens, and a caller that re-checks in vain
      parks again, with nothing else changed. */
  lemma TurnsHappen(queued: State, t: nat, schedule: seq<Turn>, k: nat)
    requires t < |queued.threads| && k < |schedule|
    ensures
      var m, m' := AfterTurns(queued, t, schedule, k), AfterTurns(queued, t, schedule, k + 1);
      match schedule[k]
      case Other(step) => m' == if Enabled(m, step) then Apply(m, step) else m
      case Back(_, _) =>
        && (m.threads[t].Parked? ==> m' == m)
        && (m.threads[t].Woken? && m.inflight >= m.cap ==>
              m' == m.(threads := m.threads[t := Parked(m.threads[t].timed)]))
  {
  }

  lemma WaitNotOver(queued: State, t: nat, timed: bool, schedule: seq<Turn>, now: State)
    requires WaitsOn(queued, t, timed, schedule, |schedule|, now)
    ensures WaitResult(queued, t, timed, schedule, |schedule|, Waiting, now)
  {
  }

  lemma WaitOver(queued: State, t: nat, timed: bool, schedule: seq<Turn>, i: nat, now: State, late: bool)
    requires WaitsOn(queued, t, timed, schedule, i, now) && i < |schedule| && WaitEnds(now, t, timed, schedule[i])
    requires late == (timed && (schedule[i].timedOut || schedule[i].expired || now.threads[t].Expired?))
    requires Enabled(now, Resume(t, late))
    ensures WaitResult(queued, t, timed, schedule, i, if now.inflight < now.cap then Granted else Refused,
                       Apply(now, Resume(t, late)))
  {
  }

  class BlockingLimiter {
    const cap: nat
    const queueCap: nat
    var inflight: int
    var queued: int
    var totalAcquired: int
    var totalRejected: int
    var threads: seq<Phase>
    ghost var released: nat
    ghost var calls: nat

    ghost function Abs(): State
      reads this
    {
      State(cap, queueCap, inflight, queued, totalAcquired, totalRejected, released, calls, threads)
    }

    ghost predicate Valid()
      reads this
    {
      Inv(Abs())
    }

    constructor (cap: nat, queueCap: nat, n: nat)
      ensures Abs() == Init(cap, queueCap, n) && Valid()
    {
      this.cap, this.queueCap := cap, queueCap;
      inflight, queued, totalAcquired, totalRejected := 0, 0, 0, 0;
      threads := seq(n, _ => Idle);
      released, calls := 0, 0;
      new;
      InitInv(cap, queueCap, n);
    }

    /** The part shared by both acquires, up to entering the queue. `None` means that the
        caller has joined the queue and still holds the mutex. */
    method TryEnter(t: nat) returns (r: Option<Outcome>)
      requires Valid() && t < |threads| && threads[t].Idle?
      modifies this
      ensures r.Some? ==> r.value != Waiting && Abs() == Apply(old(Abs()), Enter(t, false, false))
      ensures r.Some? ==> (r.value == Granted <==> threads[t].Holding?) && (r.value == Refused <==> threads[t].Idle?)
      ensures r.None? ==>
        && old(inflight) == cap && old(queued) < queueCap && cap > 0
        && Abs() == old(Abs()).(calls := old(calls) + 1, queued := old(queued) + 1)
    {
      calls := calls + 1;
      if cap == 0 {
        totalRejected := totalRejected + 1;
        threads := threads[t := Idle];
        return Some(Refused);
      }
      if inflight < cap {
        inflight := inflight + 1;
        totalAcquired := totalAcquired + 1;
        threads := threads[t := Holding];
        return Some(Granted);
      }
      if queued >= queueCap {
        totalRejected := totalRejected + 1;
        threads := threads[t := Idle];
        return Some(Refused);
      }
      queued := queued + 1;
      return None;
    }

    /** One step of some other thread, or a wake-up; a step that cannot happen is skipped. */
    method Interfere(step: Step) returns (done: bool)
      requires Valid()
      modifies this
      ensures Valid()
      ensures done == Enabled(old(Abs()), step)
      ensures Abs() == if done then Apply(old(Abs()), step) else old(Abs())
    {
      var now := State(cap, queueCap, inflight, queued, totalAcquired, totalRejected, 0, 0, threads);
      done := Enabled(now, step);
      if done {
        HistoryIsPassive(Abs(), step);
        StepKeepsInv(Abs(), step);
        Advance(Apply(now, step));
      }
    }

    /** Takes over the counters and phases of `next`, and adds its history. */
    method Advance(next: State)
      requires next.cap == cap && next.queueCap == queueCap
      modifies this
      ensures Abs() == next.(released := old(released) + next.released, calls := old(calls) + next.calls)
    {
      inflight, queued, totalAcquired, totalRejected, threads :=
        next.inflight, next.queued, next.acquired, next.rejected, next.threads;
      released, calls := released + next.released, calls + next.calls;
    }

    /** The check after every wake-up. */
    method Recheck(t: nat) returns (granted: bool)
      requires t < |threads|
      modifies this
      ensures granted == (old(inflight) < cap)
      ensures Abs() == if granted then Admit(old(Abs()).(queued := old(queued) - 1), t) else old(Abs())
    {
      if inflight < cap {
        inflight := inflight + 1;
        queued := queued - 1;
        totalAcquired := totalAcquired + 1;
        threads := threads[t := Holding];
        return true;
      }
      return false;
    }

    /** Both timeout exits. */
    method GiveUp(t: nat)
      requires t < |threads|
      modifies this
      ensures Abs() == Reject(old(Abs()).(queued := old(queued) - 1), t)
    {
      queued := queued - 1;
      totalRejected := totalRejected + 1;
      threads := threads[t := Idle];
    }

    /** `cv.wait`: others run until the caller, having been woken, re-takes the mutex.
        `back` is false when the schedule ends first. */
    method Wait(t: nat, timed: bool, schedule: seq<Turn>, from: nat, ghost joined: State,
                ghost start: State, ghost before: seq<Step>)
      returns (i: nat, back: bool, ghost trace: seq<Step>)
      requires Valid() && t < |threads| && InQueue(threads[t], timed) && Schedulable(schedule, t)
      requires WaitsOn(joined, t, timed, schedule, from, Abs()) && Leads(start, before, Abs())
      modifies this
      ensures Valid() && |threads| == old(|threads|) && InQueue(threads[t], timed)
      ensures from <= i <= |schedule| && before <= trace && Leads(start, trace, Abs())
      ensures WaitsOn(joined, t, timed, schedule, i, Abs())
      ensures if back then i < |schedule| && schedule[i].Back? && !threads[t].Parked? else i == |schedule|
    {
      i, back, trace := from, false, before;
      while i < |schedule|
        invariant from <= i <= |schedule|
        invariant Valid() && |threads| == old(|threads|) && InQueue(threads[t], timed)
        invariant before <= trace && Leads(start, trace, Abs())
        invariant WaitsOn(joined, t, timed, schedule, i, Abs())
      {
        var turn := schedule[i];
        if turn.Back? && !threads[t].Parked? {
          back := true;
          return;
        }
        trace := OneTurn(t, timed, schedule, i, joined, start, trace);
        i := i + 1;
      }
    }

    /** A turn that leaves the caller asleep: a step of another thread, if it is possible. */
    method OneTurn(t: nat, timed: bool, schedule: seq<Turn>, i: nat, ghost joined: State,
                   ghost start: State, ghost before: seq<Step>)
      returns (ghost trace: seq<Step>)
      requires Valid() && t < |threads| && InQueue(threads[t], timed) && Leads(start, before, Abs())
      requires i < |schedule| && (schedule[i].Other? ==> ByOther(schedule[i].step, t))
      requires schedule[i].Back? ==> threads[t].Parked?
      requires WaitsOn(joined, t, timed, schedule, i, Abs())
      modifies this
      ensures Valid() && |threads| == old(|threads|) && InQueue(threads[t], timed)
      ensures before <= trace && Leads(start, trace, Abs())
      ensures WaitsOn(joined, t, timed, schedule, i + 1, Abs())
    {
      OneMoreTurn(joined, t, timed, schedule, i, Abs());
      trace := before;
      if schedule[i].Other? {
        trace := LetOther(t, timed, schedule[i].step, start, before);
      }
    }

    /** A step of another thread, if it is possible. */
    method LetOther(t: nat, timed: bool, step: Step, ghost start: State, ghost before: seq<Step>)
      returns (ghost trace: seq<Step>)
      requires Valid() && t < |threads| && InQueue(threads[t], timed) && ByOther(step, t)
      requires Leads(start, before, Abs())
      modifies this
      ensures Valid() && |threads| == old(|threads|) && InQueue(threads[t], timed)
      ensures before <= trace && Leads(start, trace, Abs())
      ensures Abs() == TakeTurn(old(Abs()), t, Other(step))
    {
      trace := before;
      ghost var pre := Abs();
      var done := Interfere(step);
      if done {
        OthersKeepWaiter(pre, step, t, timed);
        LeadsOn(start, before, pre, step);
        trace := before + [step];
      }
    }

    /** `acquire`. The run it performs starts with the caller's own entry; a refusal happens
        at that entry only, and on a full queue or a zero cap. */
    method Acquire(t: nat, schedule: seq<Turn>) returns (r: Outcome, ghost trace: seq<Step>, ghost used: nat)
      requires Valid() && t < |threads| && threads[t].Idle? && Schedulable(schedule, t)
      modifies this
      ensures Valid() && |threads| == old(|threads|)
      ensures trace != [] && trace[0] == Enter(t, false, false) && Leads(old(Abs()), trace, Abs())
      ensures r == Granted <==> threads[t].Holding?
      ensures r == Refused <==> threads[t].Idle?
      ensures r == Refused <==> cap == 0 || old(inflight) + old(queued) == cap + queueCap
      ensures r == Refused ==> |trace| == 1
      ensures
        var entered := Apply(old(Abs()), Enter(t, false, false));
        if entered.threads[t].Parked? then WaitResult(entered, t, false, schedule, used, r, Abs()) else Abs() == entered
    {
      used := 0;
      ghost var start := Abs();
      ghost var enter := Enter(t, false, false);
      LeadsOn(start, [], start, enter);
      trace := [] + [enter];
      var entered := TryEnter(t);
      if entered.Some? {
        r := entered.value;
        return;
      }
      threads := threads[t := Parked(false)];
      assert Abs() == Apply(start, enter);
      r, trace, used := UntimedLoop(t, schedule, start, trace);
    }

    /** The caller of `acquire`, woken, re-checks: it takes a slot or parks again. */
    method UntimedTurn(t: nat, schedule: seq<Turn>, i: nat, ghost joined: State,
                       ghost start: State, ghost before: seq<Step>)
      returns (done: Option<Outcome>, ghost trace: seq<Step>)
      requires Valid() && t < |threads| && InQueue(threads[t], false) && Leads(start, before, Abs())
      requires i < |schedule| && schedule[i].Back? && !threads[t].Parked?
      requires WaitsOn(joined, t, false, schedule, i, Abs())
      modifies this
      ensures Valid() && |threads| == old(|threads|) && before <= trace && Leads(start, trace, Abs())
      ensures done.Some? ==>
        done.value == Granted && threads[t].Holding? && WaitResult(joined, t, false, schedule, i, Granted, Abs())
      ensures done.None? ==> threads[t] == Parked(false) && WaitsOn(joined, t, false, schedule, i + 1, Abs())
    {
      ghost var pre := Abs();
      LeadsOn(start, before, pre, Resume(t, false));
      trace := before + [Resume(t, false)];
      if inflight < cap {
        WaitOver(joined, t, false, schedule, i, pre, false);
      } else {
        OneMoreTurn(joined, t, false, schedule, i, pre);
      }
      var granted := Recheck(t);
      if granted {
        return Some(Granted), trace;
      }
      threads := threads[t := Parked(false)];
      done := None;
    }

    /** One round of a wait loop: sleep, and re-check once the mutex is back. `None` means another round,
        from turn `i` on; otherwise `i` is the turn that decided, or the end of the schedule. */
    method Round(t: nat, timed: bool, schedule: seq<Turn>, from: nat, ghost joined: State,
                 ghost start: State, ghost before: seq<Step>)
      returns (i: nat, r: Option<Outcome>, ghost trace: seq<Step>)
      requires Valid() && t < |threads| && threads[t] == Parked(timed) && Schedulable(schedule, t)
      requires WaitsOn(joined, t, timed, schedule, from, Abs()) && Leads(start, before, Abs())
      modifies this
      ensures Valid() && |threads| == old(|threads|) && before <= trace && Leads(start, trace, Abs())
      ensures r.Some? ==>
        && (r.value == Granted <==> threads[t].Holding?) && (r.value == Refused <==> threads[t].Idle?)
        && (r.value == Refused ==> timed && inflight == cap)
        && WaitResult(joined, t, timed, schedule, i, r.value, Abs())
      ensures r.None? ==>
        from < i <= |schedule| && threads[t] == Parked(timed) && WaitsOn(joined, t, timed, schedule, i, Abs())
    {
      var back;
      i, back, trace := Wait(t, timed, schedule, from, joined, start, before);
      if !back {
        WaitNotOver(joined, t, timed, schedule, Abs());
        r := Some(Waiting);
      } else if timed {
        r, trace := TimedTurn(t, schedule, i, joined, start, trace);
      } else {
        r, trace := UntimedTurn(t, schedule, i, joined, start, trace);
      }
      if r.None? {
        i := i + 1;
      }
    }

    /** The wait loop of `acquire`, which ends with a slot only. */
    method UntimedLoop(t: nat, schedule: seq<Turn>, ghost start: State, ghost before: seq<Step>)
      returns (r: Outcome, ghost trace: seq<Step>, ghost used: nat)
      requires Valid() && t < |threads| && threads[t] == Parked(false) && Schedulable(schedule, t)
      requires Leads(start, before, Abs())
      modifies this
      ensures Valid() && |threads| == old(|threads|) && before <= trace && Leads(start, trace, Abs())
      ensures r != Refused && !threads[t].Idle? && (r == Granted <==> threads[t].Holding?)
      ensures WaitResult(old(Abs()), t, false, schedule, used, r, Abs())
    {
      ghost var joined := Abs();
      NoTurnYet(joined, t, false, schedule);
      trace := before;
      var i := 0;
      while true
        invariant 0 <= i <= |schedule|
        invariant Valid() && |threads| == old(|threads|) && threads[t] == Parked(false)
        invariant before <= trace && Leads(start, trace, Abs())
        invariant WaitsOn(joined, t, false, schedule, i, Abs())
        decreases |schedule| - i
      {
        var done;
        i, done, trace := Round(t, false, schedule, i, joined, start, trace);
        if done.Some? {
          r, used := done.value, i;
          return;
        }
      }
    }

    /** `acquire_timeout`. A refusal, at entry or after any number of turns of the loop,
        finds all slots taken. */
    method AcquireTimeout(t: nat, expiredAtOnce: bool, schedule: seq<Turn>)
      returns (r: Outcome, ghost trace: seq<Step>, ghost used: nat)
      requires Valid() && t < |threads| && threads[t].Idle? && Schedulable(schedule, t)
      modifies this
      ensures Valid() && |threads| == old(|threads|)
      ensures trace != [] && trace[0] == Enter(t, true, expiredAtOnce) && Leads(old(Abs()), trace, Abs())
      ensures r == Granted <==> threads[t].Holding?
      ensures r == Refused <==> threads[t].Idle?
      ensures r == Refused ==> inflight == cap
      ensures
        var entered := Apply(old(Abs()), Enter(t, true, expiredAtOnce));
        if entered.threads[t].Parked? then WaitResult(entered, t, true, schedule, used, r, Abs()) else Abs() == entered
    {
      used := 0;
      ghost var start := Abs();
      LeadsOn(start, [], start, Enter(t, true, expiredAtOnce));
      var entered := TryEnter(t);
      if entered.Some? {
        trace := [] + [Enter(t, true, expiredAtOnce)];
        r := entered.value;
        return;
      }
      FirstSectionEnds(start, Abs(), t, expiredAtOnce);
      trace := [] + [Enter(t, true, expiredAtOnce)];
      if expiredAtOnce {
        GiveUp(t);
        r := Refused;
        return;
      }
      threads := threads[t := Parked(true)];
      r, trace, used := TimedLoop(t, schedule, start, trace);
    }

    /** The caller of `acquire_timeout`, woken, re-checks: it takes a slot, or gives up if its wait timed out
        or no time remains, or parks again. */
    method TimedTurn(t: nat, schedule: seq<Turn>, i: nat, ghost joined: State,
                     ghost start: State, ghost before: seq<Step>)
      returns (done: Option<Outcome>, ghost trace: seq<Step>)
      requires Valid() && t < |threads| && InQueue(threads[t], true) && Leads(start, before, Abs())
      requires i < |schedule| && schedule[i].Back? && !threads[t].Parked?
      requires WaitsOn(joined, t, true, schedule, i, Abs())
      modifies this
      ensures Valid() && |threads| == old(|threads|) && before <= trace && Leads(start, trace, Abs())
      ensures done.Some? ==> done.value != Waiting && WaitResult(joined, t, true, schedule, i, done.value, Abs())
      ensures done.Some? ==> (done.value == Granted <==> threads[t].Holding?)
      ensures done.Some? ==> (done.value == Refused <==> threads[t].Idle?)
      ensures done == Some(Refused) ==> inflight == cap
      ensures done.None? ==> threads[t] == Parked(true) && WaitsOn(joined, t, true, schedule, i + 1, Abs())
    {
      ghost var pre := Abs();
      var timedOut := schedule[i].timedOut || threads[t].Expired?;
      ghost var late := timedOut || schedule[i].expired;
      LeadsOn(start, before, pre, Resume(t, late));
      trace := before + [Resume(t, late)];
      if WaitEnds(pre, t, true, schedule[i]) {
        WaitOver(joined, t, true, schedule, i, pre, late);
      } else {
        OneMoreTurn(joined, t, true, schedule, i, pre);
      }
      var granted := Recheck(t);
      if granted {
        return Some(Granted), trace;
      }
      if timedOut {
        GiveUp(t);
        return Some(Refused), trace;
      }
      if schedule[i].expired {
        GiveUp(t);
        return Some(Refused), trace;
      }
      threads := threads[t := Parked(true)];
      done := None;
    }

    /** The loop of `acquire_timeout` from its first wait on, with its two timeout exits: the wait reports a
        timeout, or no time remains before the next one. */
    method TimedLoop(t: nat, schedule: seq<Turn>, ghost start: State, ghost before: seq<Step>)
      returns (r: Outcome, ghost trace: seq<Step>, ghost used: nat)
      requires Valid() && t < |threads| && threads[t] == Parked(true) && Schedulable(schedule, t)
      requires Leads(start, before, Abs())
      modifies this
      ensures Valid() && |threads| == old(|threads|) && before <= trace && Leads(start, trace, Abs())
      ensures (r == Granted <==> threads[t].Holding?) && (r == Refused <==> threads[t].Idle?)
      ensures r == Refused ==> inflight == cap
      ensures WaitResult(old(Abs()), t, true, schedule, used, r, Abs())
    {
      ghost var joined := Abs();
      NoTurnYet(joined, t, true, schedule);
      trace := before;
      var i := 0;
      while true
        invariant 0 <= i <= |schedule|
        invariant Valid() && |threads| == old(|threads|) && threads[t] == Parked(true)
        invariant before <= trace && Leads(start, trace, Abs())
        invariant WaitsOn(joined, t, true, schedule, i, Abs())
        decreases |schedule| - i
      {
        var done;
        i, done, trace := Round(t, true, schedule, i, joined, start, trace);
        if done.Some? {
          r, used := done.value, i;
          return;
        }
      }
    }

    /** `release`, as `LimiterGuard::drop` calls it. `waiter` is the thread that
        `notify_one` picks; any parked thread may be picked. */
    method Release(t: nat, waiter: nat)
      requires Valid() && t < |threads| && threads[t].Holding?
      requires NoneParked(Abs()) || (waiter < |threads| && threads[waiter].Parked?)
      modifies this
      ensures Valid() && inflight >= 0
      ensures
        var step := Step.Release(t, if NoneParked(old(Abs())) then None else Some(waiter));
        Enabled(old(Abs()), step) && Abs() == Apply(old(Abs()), step)
    {
      ghost var step := Step.Release(t, if NoneParked(Abs()) then None else Some(waiter));
      StepKeepsInv(Abs(), step);
      inflight := inflight - 1;
      released := released + 1;
      threads := threads[t := Idle];
      if waiter < |threads| && threads[waiter].Parked? {
        threads := threads[waiter := Woken(threads[waiter].timed, true)];
      }
    }

    method Stats() returns (inflightNow: int, queuedNow: int, acquired: int, rejected: int)
      requires Valid()
      ensures inflightNow == Sum(IsHolding, threads) && queuedNow == Sum(IsQueued, threads)
      ensures acquired == inflightNow + released && calls == acquired + rejected + queuedNow
    {
      return inflight, queued, totalAcquired, totalRejected;
    }
  }
}
