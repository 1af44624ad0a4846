/**
 The engine object: its fields are the shared state of `EngineProtocol`, and `RunOp` is the
 lifecycle of one call, with arbitrary steps of the other threads between its stages.
 */
module SimEngineObject {
  import opened Wrappers
  import opened EngineProtocol
  import opened EngineInvariant
  import L = LimiterProtocol
  import B = TokenBucket

  /** The gaps of a call outside its wait loop. */
  const BEFORE_WAITS: nat := 6

  datatype Reply = Done(errno: Option<int>) | StillWaiting

  predicate ByOther(step: Step, t: nat) {
    step.t != t || step.Spurious?
  }

  /** What other threads leave alone: the pc of `t`, past events, and every call that `t` owns
      or that already has its event. */
  ghost predicate Steady(s: Engine, s': Engine, t: nat) {
    && t < |s.pcs| == |s'.pcs| && s'.pcs[t] == s.pcs[t]
    && s.events <= s'.events && |s.calls| <= |s'.calls|
    && forall i | 0 <= i < |s.calls| && (s.calls[i].place == At(t) || s.calls[i].place.Logged?) ::
         s'.calls[i] == s.calls[i]
  }

  lemma OthersAreSteady(cfg: Config, s: Engine, step: Step, t: nat)
    requires Inv(cfg, s) && Enabled(s, step) && ByOther(step, t) && t < |s.pcs|
    ensures Steady(s, Apply(cfg, s, step), t)
  {
    StepChangesOwnCall(cfg, s, step);
    if Owes(s.pcs[step.t]) == 1 {
      assert s.calls[s.pcs[step.t].no].place == At(step.t);
    }
  }

  /** What the other threads make of a state when they are given these steps to take: each that is
      possible at its turn happens. */
  function Played(cfg: Config, s: Engine, t: nat, steps: seq<Step>): Engine {
    if steps == [] then s
    else
      var m, step := Played(cfg, s, t, steps[..|steps| - 1]), steps[|steps| - 1];
      if ByOther(step, t) && Enabled(m, step) then Apply(cfg, m, step) else m
  }

  lemma PlayedOneMore(cfg: Config, s: Engine, t: nat, steps: seq<Step>, i: nat)
    requires i < |steps|
    ensures
      var m := Played(cfg, s, t, steps[..i]);
      Played(cfg, s, t, steps[..i + 1]) ==
      if ByOther(steps[i], t) && Enabled(m, steps[i]) then Apply(cfg, m, steps[i]) else m
  {
    assert steps[..i + 1][..i] == steps[..i];
  }

  lemma SteadyTwice(a: Engine, b: Engine, c: Engine, t: nat)
    requires Steady(a, b, t) && Steady(b, c, t)
    ensures Steady(a, c, t)
  {
  }

  // ---------------------------------------------------------------- the reply of a call

  /** The reply that a call's fate calls for. */
  ghost predicate Verdict(cfg: Config, fate: Fate, no: nat, ctx: OpContext, reply: Option<int>, body: Option<int>) {
    match fate
    case Pending => false
    case TurnedAway => reply == Some(EAGAIN)
    case Served(inj, _) => inj == Inject(cfg, ctx, no) && reply == if inj.fault.Some? then inj.fault else body
  }

  /** Call `no` is over: its event is in the log and carries `reply`, which its fate calls for. */
  ghost predicate Concluded(cfg: Config, s: Engine, no: nat, ctx: OpContext, reply: Option<int>, body: Option<int>) {
    && no < |s.calls| && s.calls[no].ctx == ctx && s.calls[no].place.Logged?
    && var k := s.calls[no].place.k;
       && k < |s.events| && s.events[k].no == no && s.events[k].errno == reply
       && Tells(s.events[k], s.calls[no]) && Verdict(cfg, s.calls[no].fate, no, ctx, reply, body)
  }

  lemma SteadyKeepsConcluded(cfg: Config, s: Engine, s': Engine, t: nat, no: nat, ctx: OpContext,
                             reply: Option<int>, body: Option<int>)
    requires Steady(s, s', t) && Concluded(cfg, s, no, ctx, reply, body)
    ensures Concluded(cfg, s', no, ctx, reply, body)
  {
  }

  lemma SameLogKeepsConcluded(cfg: Config, s: Engine, s': Engine, no: nat, ctx: OpContext,
                              reply: Option<int>, body: Option<int>)
    requires s'.calls == s.calls && s'.events == s.events && Concluded(cfg, s, no, ctx, reply, body)
    ensures Concluded(cfg, s', no, ctx, reply, body)
  {
  }

  lemma EmitConcludes(cfg: Config, s: Engine, t: nat, body: Option<int>)
    requires Inv(cfg, s) && Enabled(s, Emit(t))
    requires s.pcs[t].Finished? && s.pcs[t].inj.fault.None? ==> s.pcs[t].errno == body
    ensures Concluded(cfg, ApplyEmit(s, t), s.pcs[t].no, s.pcs[t].ctx, EventOf(s.pcs[t]).errno, body)
  {
    var pc := s.pcs[t];
    assert FateMatches(pc, s.calls[pc.no].fate);
  }

  /** The phases in which a thread finds itself let it take its next step. */
  lemma NextStepPossible(cfg: Config, s: Engine, t: nat)
    requires Inv(cfg, s) && t < |s.pcs| && !s.pcs[t].Ready?
    ensures
      var phase := s.limiters[Idx(s.pcs[t].ctx.op)].threads[t];
      && s.pcs[t].no < |s.calls|
      && (s.pcs[t].Numbered? ==> Enabled(s, Acquire(t)))
      && (s.pcs[t].Queued? && !phase.Parked? ==> Enabled(s, Resume(t)))
      && (s.pcs[t].Recorded? ==> phase.Holding?)
  {
    assert PhaseMatches(s.pcs[t], Idx(s.pcs[t].ctx.op), s.limiters[Idx(s.pcs[t].ctx.op)].threads[t]);
  }

  /** Thread `t` is asleep in the queue of its operation's limiter. */
  predicate Asleep(s: Engine, t: nat) {
    && Shape(s) && t < |s.pcs| && s.pcs[t].Queued?
    && s.limiters[Idx(s.pcs[t].ctx.op)].threads[t].Parked?
  }

  /** A thread that asks for a slot, or asks again, is admitted, refused or queued asleep. */
  lemma SlotOutcome(cfg: Config, s: Engine, step: Step)
    requires Enabled(s, step) && (step.Acquire? || step.Resume?)
    ensures
      var s' := Apply(cfg, s, step);
      && |s'.pcs| == |s.pcs| && (s'.pcs[step.t].Admitted? || s'.pcs[step.t].Refused? || Asleep(s', step.t))
      && s'.pcs[step.t].no == s.pcs[step.t].no && s'.pcs[step.t].ctx == s.pcs[step.t].ctx
  {
  }

  /** Recording the metrics ends a refused call and leaves an admitted one with its guard. */
  lemma RecordOutcome(cfg: Config, s: Engine, t: nat)
    requires Enabled(s, Record(t))
    ensures
      var s' := Apply(cfg, s, Record(t));
      && |s'.pcs| == |s.pcs| && (s'.pcs[t].Ready? || s'.pcs[t].Recorded?)
      && s'.calls == s.calls && s'.events == s.events
  {
  }

  class SimEngine {
    const cfg: Config
    var nextNo: nat
    var limiters: seq<L.State>
    var base: seq<Option<B.Bucket>>
    var large: seq<Option<B.Bucket>>
    var events: seq<Event>
    var countOk: seq<nat>
    var countErr: seq<nat>
    var pcs: seq<Pc>
    var calls: seq<Call>     // history

    function Abs(): Engine
      reads this
    {
      Engine(nextNo, limiters, base, large, events, countOk, countErr, pcs, calls)
    }

    ghost predicate Valid()
      reads this
    {
      Inv(cfg, Abs())
    }

    /** `new`. */
    constructor (cfg: Config, n: nat, now: real)
      ensures this.cfg == cfg && Abs() == Init(cfg, n, now) && Valid()
    {
      this.cfg := cfg;
      nextNo, events, calls := 0, [], [];
      countOk, countErr := seq(OPS, _ => 0), seq(OPS, _ => 0);
      pcs := seq(n, _ => Ready);
      var l, b, g := BuildResources(cfg, n, now);
      limiters, base, large := l, b, g;
      new;
      InitInv(cfg, n, now);
    }

    /** A limiter per operation, and buckets where the policy, given or default, has them. */
    static method BuildResources(cfg: Config, n: nat, now: real)
      returns (limiters: seq<L.State>, base: seq<Option<B.Bucket>>, large: seq<Option<B.Bucket>>)
      ensures limiters == Init(cfg, n, now).limiters
      ensures base == Init(cfg, n, now).base && large == Init(cfg, n, now).large
    {
      limiters, base, large := [], [], [];
      for i := 0 to OPS
        invariant |limiters| == |base| == |large| == i
        invariant forall j | 0 <= j < i ::
          && limiters[j] == L.Init(Policy(cfg, ALL[j]).cap, Policy(cfg, ALL[j]).queueCap, n)
          && base[j] == FreshBucket(Policy(cfg, ALL[j]).bandwidth, now)
          && large[j] == FreshBucket(BandwidthOf(Policy(cfg, ALL[j]), Large), now)
      {
        var policy := Policy(cfg, ALL[i]);
        limiters := limiters + [L.Init(policy.cap, policy.queueCap, n)];
        base := base + [FreshBucket(policy.bandwidth, now)];
        large := large + [FreshBucket(BandwidthOf(policy, Large), now)];
      }
    }

    /** The fields after a step. */
    method Become(s: Engine)
      modifies this
      ensures Abs() == s
    {
      nextNo, limiters, base, large := s.nextNo, s.limiters, s.base, s.large;
      events, countOk, countErr, pcs, calls := s.events, s.countOk, s.countErr, s.pcs, s.calls;
    }

    /** Steps of other threads; those that are not possible are skipped. */
    method Others(t: nat, steps: seq<Step>, ghost start: Engine, ghost before: seq<Step>)
      returns (ghost trace: seq<Step>)
      requires Valid() && t < |pcs| && Leads(cfg, start, before, Abs())
      modifies this
      ensures Valid() && Leads(cfg, start, trace, Abs()) && before <= trace
      ensures Steady(old(Abs()), Abs(), t) && Abs() == Played(cfg, old(Abs()), t, steps)
    {
      trace := before;
      for i := 0 to |steps|
        invariant Valid() && Leads(cfg, start, trace, Abs()) && before <= trace
        invariant Steady(old(Abs()), Abs(), t) && Abs() == Played(cfg, old(Abs()), t, steps[..i])
      {
        PlayedOneMore(cfg, old(Abs()), t, steps, i);
        ghost var mid := Abs();
        trace := OneOther(t, steps[i], start, trace);
        SteadyTwice(old(Abs()), mid, Abs(), t);
      }
      assert steps[..|steps|] == steps;
    }

    method OneOther(t: nat, step: Step, ghost start: Engine, ghost before: seq<Step>) returns (ghost trace: seq<Step>)
      requires Valid() && t < |pcs| && Leads(cfg, start, before, Abs())
      modifies this
      ensures Valid() && Leads(cfg, start, trace, Abs()) && before <= trace
      ensures Steady(old(Abs()), Abs(), t)
      ensures Abs() ==
              if ByOther(step, t) && Enabled(old(Abs()), step) then Apply(cfg, old(Abs()), step) else old(Abs())
    {
      trace := before;
      ghost var mid := Abs();
      if ByOther(step, t) && Enabled(Abs(), step) {
        LeadsOn(cfg, start, before, mid, step);
        OthersAreSteady(cfg, mid, step, t);
        trace := before + [step];
        Become(Apply(cfg, Abs(), step));
      }
    }

    // -------------------------------------------------------------- the stages of run_op

    method TakeNumber(t: nat, ctx: OpContext)
      requires Enabled(Abs(), Start(t, ctx))
      modifies this
      ensures Abs() == Apply(cfg, old(Abs()), Start(t, ctx))
    {
      var no := nextNo;
      nextNo := nextNo + 1;
      calls := calls + [Call(ctx, At(t), Pending)];
      pcs := pcs[t := Numbered(no, ctx)];
    }

    /** Stage 1, the limiter's `acquire` up to its first wait, or one re-check after a wait. */
    method TakeSlot(t: nat, step: Step)
      requires Enabled(Abs(), step) && step.t == t && (step.Acquire? || step.Resume?)
      modifies this
      ensures Abs() == Apply(cfg, old(Abs()), step)
    {
      var pc := pcs[t];
      var o := Idx(pc.ctx.op);
      limiters := limiters[o := L.Apply(limiters[o], LimiterStep(step))];
      var phase := limiters[o].threads[t];
      if phase.Holding? {
        pcs := pcs[t := Admitted(pc.no, pc.ctx)];
      } else if phase.Idle? {
        calls := calls[pc.no := calls[pc.no].(fate := TurnedAway)];
        pcs := pcs[t := Refused(pc.no, pc.ctx)];
      } else {
        pcs := pcs[t := Queued(pc.no, pc.ctx)];
      }
    }

    /** Stage 3: data ops reserve in the bucket of their tier, if it has one. */
    method ReserveBandwidth(o: nat, tier: Tier, profile: Option<B.Profile>, ctx: OpContext, now: real)
      returns (delay: real)
      requires o < |base| && o < |large|
      modifies this`base, this`large
      ensures
        var was := if tier == Base then old(base[o]) else old(large[o]);
        var (bucket, wait) := Reserve(profile, was, ctx, now);
        && delay == wait
        && base == (if tier == Base then old(base)[o := bucket] else old(base))
        && large == (if tier == Large then old(large)[o := bucket] else old(large))
    {
      delay := 0.0;
      if IsData(ctx.op) && profile.Some? {
        if tier == Base && base[o].Some? {
          var reserved := B.Reserve(profile.value, base[o].value, ctx.len, now);
          base, delay := base[o := Some(reserved.0)], reserved.1;
        } else if tier == Large && large[o].Some? {
          var reserved := B.Reserve(profile.value, large[o].value, ctx.len, now);
          large, delay := large[o := Some(reserved.0)], reserved.1;
        }
      }
    }

    /** Stages 2 and 3: pick the tier, sample, and reserve bandwidth for data ops. */
    method SampleAndReserve(t: nat, now: real)
      requires Enabled(Abs(), Charge(t, now))
      modifies this
      ensures Abs() == Apply(cfg, old(Abs()), Charge(t, now))
    {
      var pc := pcs[t];
      var o, ctx := Idx(pc.ctx.op), pc.ctx;
      var policy := Policy(cfg, ctx.op);
      var tier := SelectTier(policy, ctx.op, ctx.requestedLen);
      var key := KeyOf(ctx, pc.no);
      var fault := cfg.samplers.fault(FaultsOf(policy, tier), key);
      var inj := Injection(fault, cfg.samplers.latency(LatencyOf(policy, tier), key));
      var delay := ReserveBandwidth(o, tier, BandwidthOf(policy, tier), ctx, now);
      calls := calls[pc.no := calls[pc.no].(fate := Served(inj, delay))];
      pcs := pcs[t := Charged(pc.no, ctx, inj, delay)];
    }

    /** Stages 4 and 5: after the sleep, a fault skips the body. */
    method Conclude(t: nat, body: Option<int>)
      requires Enabled(Abs(), Finish(t, body))
      modifies this
      ensures Abs() == Apply(cfg, old(Abs()), Finish(t, body))
    {
      var pc := pcs[t];
      var result := match pc.inj.fault case Some(errno) => Some(errno) case None => body;
      pcs := pcs[t := Finished(pc.no, pc.ctx, pc.inj, pc.delay, result)];
    }

    /** Stage 6, the event. */
    method EmitEvent(t: nat)
      requires Enabled(Abs(), Emit(t))
      modifies this
      ensures Abs() == Apply(cfg, old(Abs()), Emit(t))
    {
      var pc := pcs[t];
      calls := calls[pc.no := calls[pc.no].(place := Logged(|events|))];
      events := events + [EventOf(pc)];
      pcs := pcs[t := if pc.Refused? then RefusalTold(pc.no, pc.ctx) else Told(pc.no, pc.ctx, pc.errno)];
    }

    /** Stage 6, the metrics; a refused call returns here. */
    method RecordMetrics(t: nat)
      requires Enabled(Abs(), Record(t))
      modifies this
      ensures Abs() == Apply(cfg, old(Abs()), Record(t))
    {
      var pc := pcs[t];
      var o := Idx(pc.ctx.op);
      if pc.Told? && pc.errno.None? {
        countOk := countOk[o := countOk[o] + 1];
      } else {
        countErr := countErr[o := countErr[o] + 1];
      }
      pcs := pcs[t := if pc.Told? then Recorded(pc.no, pc.ctx) else Ready];
    }

    /** Stage 7: the guard is dropped; `notify_one` picks some parked thread, if there is one. */
    method DropGuard(t: nat) returns (ghost woken: Option<nat>)
      requires Shape(Abs()) && t < |pcs| && pcs[t].Recorded? && pcs[t].no < |calls|
      requires limiters[Idx(pcs[t].ctx.op)].threads[t].Holding?
      modifies this
      ensures Enabled(old(Abs()), Drop(t, woken)) && Abs() == Apply(cfg, old(Abs()), Drop(t, woken))
    {
      var o := Idx(pcs[t].ctx.op);
      var u := 0;
      while u < |pcs| && !limiters[o].threads[u].Parked?
        invariant u <= |pcs| && forall k | 0 <= k < u :: !limiters[o].threads[k].Parked?
      {
        u := u + 1;
      }
      var picked := if u < |pcs| then Some(u) else None;
      woken := picked;
      limiters := limiters[o := L.Apply(limiters[o], L.Release(t, picked))];
      pcs := pcs[t := Ready];
    }

    // -------------------------------------------------------------- the stages as steps of a run

    method SlotStep(t: nat, step: Step, ghost start: Engine, ghost before: seq<Step>) returns (ghost trace: seq<Step>)
      requires Valid() && Enabled(Abs(), step) && step.t == t && (step.Acquire? || step.Resume?)
      requires Leads(cfg, start, before, Abs())
      modifies this
      ensures Valid() && |pcs| == old(|pcs|) && trace == before + [step] && Leads(cfg, start, trace, Abs())
      ensures Abs() == Apply(cfg, old(Abs()), step)
      ensures pcs[t].Admitted? || pcs[t].Refused? || Asleep(Abs(), t)
      ensures pcs[t].no == old(pcs[t].no) && pcs[t].ctx == old(pcs[t].ctx)
    {
      LeadsOn(cfg, start, before, Abs(), step);
      SlotOutcome(cfg, Abs(), step);
      TakeSlot(t, step);
      trace := before + [step];
    }

    method ChargeStep(t: nat, now: real, ghost start: Engine, ghost before: seq<Step>) returns (ghost trace: seq<Step>)
      requires Valid() && Enabled(Abs(), Charge(t, now)) && Leads(cfg, start, before, Abs())
      modifies this
      ensures Valid() && |pcs| == old(|pcs|) && trace == before + [Charge(t, now)] && Leads(cfg, start, trace, Abs())
      ensures pcs[t].Charged? && pcs[t].no == old(pcs[t].no) && pcs[t].ctx == old(pcs[t].ctx)
    {
      LeadsOn(cfg, start, before, Abs(), Charge(t, now));
      SampleAndReserve(t, now);
      trace := before + [Charge(t, now)];
    }

    method FinishStep(t: nat, body: Option<int>, ghost start: Engine, ghost before: seq<Step>)
      returns (ghost trace: seq<Step>)
      requires Valid() && Enabled(Abs(), Finish(t, body)) && Leads(cfg, start, before, Abs())
      modifies this
      ensures Valid() && |pcs| == old(|pcs|) && trace == before + [Finish(t, body)] && Leads(cfg, start, trace, Abs())
      ensures pcs[t].Finished? && pcs[t].no == old(pcs[t].no) && pcs[t].ctx == old(pcs[t].ctx)
      ensures pcs[t].inj.fault.None? ==> pcs[t].errno == body
    {
      LeadsOn(cfg, start, before, Abs(), Finish(t, body));
      Conclude(t, body);
      trace := before + [Finish(t, body)];
    }

    method RecordStep(t: nat, ghost start: Engine, ghost before: seq<Step>) returns (ghost trace: seq<Step>)
      requires Valid() && Enabled(Abs(), Record(t)) && Leads(cfg, start, before, Abs())
      modifies this
      ensures Valid() && |pcs| == old(|pcs|) && trace == before + [Record(t)] && Leads(cfg, start, trace, Abs())
      ensures pcs[t].Ready? || pcs[t].Recorded?
      ensures calls == old(calls) && events == old(events)
    {
      LeadsOn(cfg, start, before, Abs(), Record(t));
      RecordOutcome(cfg, Abs(), t);
      RecordMetrics(t);
      trace := before + [Record(t)];
    }

    method DropStep(t: nat, ghost start: Engine, ghost before: seq<Step>) returns (ghost trace: seq<Step>)
      requires Valid() && t < |pcs| && pcs[t].Recorded? && Leads(cfg, start, before, Abs())
      modifies this
      ensures Valid() && |pcs| == old(|pcs|) && before <= trace && Leads(cfg, start, trace, Abs())
      ensures pcs[t].Ready? && calls == old(calls) && events == old(events)
    {
      NextStepPossible(cfg, Abs(), t);
      ghost var last := Abs();
      ghost var woken := DropGuard(t);
      LeadsOn(cfg, start, before, last, Drop(t, woken));
      trace := before + [Drop(t, woken)];
    }

    // -------------------------------------------------------------- the lifecycle

    /** Stage 1 with its waits. Only after all `patience` turns of the loop may the caller still be
        queued, and then it is asleep. */
    method AwaitSlot(t: nat, env: nat -> seq<Step>, patience: nat, ghost start: Engine, ghost before: seq<Step>)
      returns (turns: nat, ghost trace: seq<Step>)
      requires Valid() && t < |pcs| && pcs[t].Numbered? && Leads(cfg, start, before, Abs())
      modifies this
      ensures Valid() && |pcs| == old(|pcs|) && before <= trace && Leads(cfg, start, trace, Abs())
      ensures pcs[t].Admitted? || pcs[t].Refused? || (Asleep(Abs(), t) && turns == patience)
      ensures pcs[t].no == old(pcs[t].no) && pcs[t].ctx == old(pcs[t].ctx)
    {
      NextStepPossible(cfg, Abs(), t);
      trace := SlotStep(t, Acquire(t), start, before);
      turns := 0;
      while pcs[t].Queued? && turns < patience
        invariant turns <= patience
        invariant Valid() && |pcs| == old(|pcs|) && before <= trace && Leads(cfg, start, trace, Abs())
        invariant pcs[t].Admitted? || pcs[t].Refused? || Asleep(Abs(), t)
        invariant pcs[t].no == old(pcs[t].no) && pcs[t].ctx == old(pcs[t].ctx)
      {
        trace := WaitTurn(t, env(BEFORE_WAITS + turns), start, trace);
        turns := turns + 1;
      }
    }

    /** One turn of the wait loop: others run, and the caller re-checks if it has been woken. */
    method WaitTurn(t: nat, env: seq<Step>, ghost start: Engine, ghost before: seq<Step>)
      returns (ghost trace: seq<Step>)
      requires Valid() && t < |pcs| && pcs[t].Queued? && Leads(cfg, start, before, Abs())
      modifies this
      ensures Valid() && |pcs| == old(|pcs|) && before <= trace && Leads(cfg, start, trace, Abs())
      ensures pcs[t].Admitted? || pcs[t].Refused? || Asleep(Abs(), t)
      ensures pcs[t].no == old(pcs[t].no) && pcs[t].ctx == old(pcs[t].ctx)
      ensures
        var m := Played(cfg, old(Abs()), t, env);
        Abs() == if Asleep(m, t) || !Enabled(m, Resume(t)) then m else Apply(cfg, m, Resume(t))
    {
      trace := Others(t, env, start, before);
      NextStepPossible(cfg, Abs(), t);
      if !limiters[Idx(pcs[t].ctx.op)].threads[t].Parked? {
        trace := SlotStep(t, Resume(t), start, trace);
      }
    }

    /** Stages 2 to 5 of an admitted call, with others before the charge and before the body's result. */
    method Serve(t: nat, body: Option<int>, now: real, env: nat -> seq<Step>,
                 ghost start: Engine, ghost before: seq<Step>)
      returns (ghost trace: seq<Step>)
      requires Valid() && t < |pcs| && pcs[t].Admitted? && Leads(cfg, start, before, Abs())
      modifies this
      ensures Valid() && |pcs| == old(|pcs|) && before <= trace && Leads(cfg, start, trace, Abs())
      ensures pcs[t].Finished? && pcs[t].no == old(pcs[t].no) && pcs[t].ctx == old(pcs[t].ctx)
      ensures pcs[t].inj.fault.None? ==> pcs[t].errno == body
    {
      trace := Others(t, env(1), start, before);
      NextStepPossible(cfg, Abs(), t);
      trace := ChargeStep(t, now, start, trace);
      trace := Others(t, env(2), start, trace);
      NextStepPossible(cfg, Abs(), t);
      trace := FinishStep(t, body, start, trace);
    }

    /** Stages 6 and 7, with others before the event, before the metrics and before the guard's drop. */
    method Report(t: nat, ghost body: Option<int>, env: nat -> seq<Step>, ghost start: Engine, ghost before: seq<Step>)
      returns (reply: Option<int>, ghost trace: seq<Step>)
      requires Valid() && t < |pcs| && (pcs[t].Refused? || pcs[t].Finished?) && Leads(cfg, start, before, Abs())
      requires pcs[t].Finished? && pcs[t].inj.fault.None? ==> pcs[t].errno == body
      modifies this
      ensures Valid() && |pcs| == old(|pcs|) && before <= trace && Leads(cfg, start, trace, Abs())
      ensures pcs[t].Ready? && Concluded(cfg, Abs(), old(pcs[t].no), old(pcs[t].ctx), reply, body)
    {
      ghost var no, ctx := pcs[t].no, pcs[t].ctx;
      trace := Others(t, env(3), start, before);
      reply, trace := EmitStep(t, body, start, trace);
      ghost var mid := Abs();
      trace := Others(t, env(4), start, trace);
      SteadyKeepsConcluded(cfg, mid, Abs(), t, no, ctx, reply, body);
      trace := Leave(t, env(5), start, trace, no, ctx, reply, body);
    }

    method EmitStep(t: nat, ghost body: Option<int>, ghost start: Engine, ghost before: seq<Step>)
      returns (reply: Option<int>, ghost trace: seq<Step>)
      requires Valid() && t < |pcs| && (pcs[t].Refused? || pcs[t].Finished?) && Leads(cfg, start, before, Abs())
      requires pcs[t].Finished? && pcs[t].inj.fault.None? ==> pcs[t].errno == body
      modifies this
      ensures Valid() && |pcs| == old(|pcs|) && before <= trace && Leads(cfg, start, trace, Abs())
      ensures pcs[t].RefusalTold? || pcs[t].Told?
      ensures Concluded(cfg, Abs(), old(pcs[t].no), old(pcs[t].ctx), reply, body)
    {
      NextStepPossible(cfg, Abs(), t);
      LeadsOn(cfg, start, before, Abs(), Emit(t));
      EmitConcludes(cfg, Abs(), t, body);
      reply := EventOf(pcs[t]).errno;
      EmitEvent(t);
      trace := before + [Emit(t)];
    }

    /** The metrics, and for an admitted call the drop of the guard. */
    method Leave(t: nat, env: seq<Step>, ghost start: Engine, ghost before: seq<Step>,
                 ghost no: nat, ghost ctx: OpContext, ghost reply: Option<int>, ghost body: Option<int>)
      returns (ghost trace: seq<Step>)
      requires Valid() && t < |pcs| && (pcs[t].RefusalTold? || pcs[t].Told?) && Leads(cfg, start, before, Abs())
      requires Concluded(cfg, Abs(), no, ctx, reply, body)
      modifies this
      ensures Valid() && |pcs| == old(|pcs|) && before <= trace && Leads(cfg, start, trace, Abs())
      ensures pcs[t].Ready? && Concluded(cfg, Abs(), no, ctx, reply, body)
    {
      ghost var first := Abs();
      NextStepPossible(cfg, first, t);
      trace := RecordStep(t, start, before);
      SameLogKeepsConcluded(cfg, first, Abs(), no, ctx, reply, body);
      if !pcs[t].Ready? {
        trace := LeaveWithGuard(t, env, start, trace, no, ctx, reply, body);
      }
    }

    method LeaveWithGuard(t: nat, env: seq<Step>, ghost start: Engine, ghost before: seq<Step>,
                          ghost no: nat, ghost ctx: OpContext, ghost reply: Option<int>, ghost body: Option<int>)
      returns (ghost trace: seq<Step>)
      requires Valid() && t < |pcs| && pcs[t].Recorded? && Leads(cfg, start, before, Abs())
      requires Concluded(cfg, Abs(), no, ctx, reply, body)
      modifies this
      ensures Valid() && |pcs| == old(|pcs|) && before <= trace && Leads(cfg, start, trace, Abs())
      ensures pcs[t].Ready? && Concluded(cfg, Abs(), no, ctx, reply, body)
    {
      ghost var first := Abs();
      trace := Others(t, env, start, before);
      ghost var second := Abs();
      SteadyKeepsConcluded(cfg, first, second, t, no, ctx, reply, body);
      trace := DropStep(t, start, trace);
      SameLogKeepsConcluded(cfg, second, Abs(), no, ctx, reply, body);
    }

    /** `run_op`. `env` gives the steps of other threads for every gap between two accesses to shared
        state: 0 .. 5 in the order of the stages, and from 6 on for the turns of the wait loop. The
        reply is the errno of the call's event: EAGAIN if refused, else the injected fault, else the
        body's own result. Only a caller that is asleep after all `patience` turns has no reply yet. */
    method RunOp(t: nat, ctx: OpContext, body: Option<int>, now: real, env: nat -> seq<Step>, patience: nat)
      returns (reply: Reply, turns: nat, ghost trace: seq<Step>)
      requires Valid() && t < |pcs| && pcs[t].Ready?
      modifies this
      ensures Valid() && |pcs| == old(|pcs|)
      ensures [Start(t, ctx)] <= trace && Leads(cfg, old(Abs()), trace, Abs())
      ensures reply.Done? ==> pcs[t].Ready? && Concluded(cfg, Abs(), old(nextNo), ctx, reply.errno, body)
      ensures reply.StillWaiting? ==> pcs[t] == Queued(old(nextNo), ctx) && Asleep(Abs(), t) && turns == patience
    {
      ghost var start := Abs();
      LeadsOn(cfg, start, [], start, Start(t, ctx));
      TakeNumber(t, ctx);
      trace := [] + [Start(t, ctx)];
      trace := Others(t, env(0), start, trace);
      turns, trace := AwaitSlot(t, env, patience, start, trace);
      if pcs[t].Queued? {
        return StillWaiting, turns, trace;
      }
      if pcs[t].Admitted? {
        trace := Serve(t, body, now, env, start, trace);
      }
      var errno;
      errno, trace := Report(t, body, env, start, trace);
      reply := Done(errno);
    }
  }
}
