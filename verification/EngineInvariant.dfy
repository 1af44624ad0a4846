/** What every step of the engine keeps. */
module EngineInvariant {
  import opened Sums
  import opened Wrappers
  import opened EngineProtocol
  import L = LimiterProtocol
  import B = TokenBucket

  // ---------------------------------------------------------------- limiters

  predicate HoldsSlot(pc: Pc) {
    pc.Admitted? || pc.Charged? || pc.Finished? || pc.Told? || pc.Recorded?
  }

  /** A thread's phase in the limiter of operation `o` is the one that its pc says. */
  predicate PhaseMatches(pc: Pc, o: nat, phase: L.Phase) {
    if pc.Ready? || Idx(pc.ctx.op) != o then phase.Idle?
    else if pc.Queued? then phase == L.Parked(false) || (phase.Woken? && !phase.timed)
    else if HoldsSlot(pc) then phase.Holding?
    else phase.Idle?
  }

  ghost predicate CapsOk(cfg: Config, s: Engine)
    requires Shape(s)
  {
    forall o: nat | o < OPS ::
      && L.Inv(s.limiters[o])
      && s.limiters[o].cap == Policy(cfg, ALL[o]).cap && s.limiters[o].queueCap == Policy(cfg, ALL[o]).queueCap
  }

  ghost predicate LimitersOk(cfg: Config, s: Engine) {
    && Shape(s)
    && CapsOk(cfg, s)
    && (forall o: nat, t: nat | o < OPS && t < |s.pcs| :: PhaseMatches(s.pcs[t], o, s.limiters[o].threads[t]))
  }

  /** A limiter step moves the acting thread as its pc moves; others move only within the queue. */
  lemma LimiterStepMatches(s: Engine, step: Step, u: nat)
    requires Enabled(s, step) && Limits(step) && u < |s.pcs|
    requires
      var o := Idx(s.pcs[step.t].ctx.op);
      && L.Inv(s.limiters[o])
      && PhaseMatches(s.pcs[step.t], o, s.limiters[o].threads[step.t])
      && PhaseMatches(s.pcs[u], o, s.limiters[o].threads[u])
    ensures
      var o := Idx(s.pcs[step.t].ctx.op);
      var s' := ApplyLimiter(s, step);
      && |s'.limiters[o].threads| == |s.pcs|
      && PhaseMatches(s'.pcs[u], o, s'.limiters[o].threads[u])
  {
  }

  /** The counters of the limiter in which the step happens, and of the others. */
  lemma LimiterStepKeepsCounters(cfg: Config, s: Engine, step: Step)
    requires LimitersOk(cfg, s) && Enabled(s, step) && Limits(step)
    ensures Shape(ApplyLimiter(s, step)) && CapsOk(cfg, ApplyLimiter(s, step))
  {
    var c := Idx(s.pcs[step.t].ctx.op);
    L.StepKeepsInv(s.limiters[c], LimiterStep(step));
    assert |ApplyLimiter(s, step).limiters[c].threads| == |s.pcs|;
  }

  lemma LimiterStepKeepsLimiters(cfg: Config, s: Engine, step: Step)
    requires LimitersOk(cfg, s) && Enabled(s, step) && Limits(step)
    ensures LimitersOk(cfg, ApplyLimiter(s, step))
  {
    var s' := ApplyLimiter(s, step);
    var c := Idx(s.pcs[step.t].ctx.op);
    LimiterStepKeepsCounters(cfg, s, step);
    forall o: nat, u: nat | o < OPS && u < |s.pcs| ensures PhaseMatches(s'.pcs[u], o, s'.limiters[o].threads[u]) {
      assert PhaseMatches(s.pcs[u], o, s.limiters[o].threads[u]);
      if o == c {
        LimiterStepMatches(s, step, u);
      }
    }
  }

  /** The other steps leave the limiters alone and move the acting thread between pcs of one phase. */
  lemma OtherStepStaysInPhase(cfg: Config, s: Engine, step: Step, o: nat, phase: L.Phase)
    requires Enabled(s, step) && !Limits(step) && PhaseMatches(s.pcs[step.t], o, phase)
    ensures
      var s' := Apply(cfg, s, step);
      && s'.limiters == s.limiters && Shape(s') && s'.pcs == s.pcs[step.t := s'.pcs[step.t]]
      && PhaseMatches(s'.pcs[step.t], o, phase)
  {
  }

  lemma OtherStepKeepsLimiters(cfg: Config, s: Engine, step: Step)
    requires LimitersOk(cfg, s) && Enabled(s, step) && !Limits(step)
    ensures LimitersOk(cfg, Apply(cfg, s, step))
  {
    forall o: nat | o < OPS
      ensures PhaseMatches(Apply(cfg, s, step).pcs[step.t], o, s.limiters[o].threads[step.t])
    {
      OtherStepStaysInPhase(cfg, s, step, o, s.limiters[o].threads[step.t]);
    }
    OtherStepStaysInPhase(cfg, s, step, 0, s.limiters[0].threads[step.t]);
  }

  lemma StepKeepsLimiters(cfg: Config, s: Engine, step: Step)
    requires LimitersOk(cfg, s) && Enabled(s, step)
    ensures LimitersOk(cfg, Apply(cfg, s, step))
  {
    if Limits(step) {
      LimiterStepKeepsLimiters(cfg, s, step);
    } else {
      OtherStepKeepsLimiters(cfg, s, step);
    }
  }

  // ---------------------------------------------------------------- calls and events

  /** The call of this thread has no event yet. */
  function Owes(pc: Pc): nat {
    if pc.Ready? || pc.RefusalTold? || pc.Told? || pc.Recorded? then 0 else 1
  }

  /** Every thread inside a call knows it, and a call without event knows its thread. */
  ghost predicate ThreadsPointToCalls(s: Engine) {
    && (forall t: nat | t < |s.pcs| && !s.pcs[t].Ready? ::
          s.pcs[t].no < |s.calls| && s.calls[s.pcs[t].no].ctx == s.pcs[t].ctx)
    && (forall t: nat | t < |s.pcs| && Owes(s.pcs[t]) == 1 :: s.calls[s.pcs[t].no].place == At(t))
  }

  ghost predicate CallsPointToThreads(s: Engine) {
    forall i: nat | i < |s.calls| && s.calls[i].place.At? ::
      var t := s.calls[i].place.t;
      t < |s.pcs| && Owes(s.pcs[t]) == 1 && s.pcs[t].no == i
  }

  ghost predicate CallsMatchEvents(s: Engine) {
    && (forall i: nat | i < |s.calls| && s.calls[i].place.Logged? ::
          s.calls[i].place.k < |s.events| && s.events[s.calls[i].place.k].no == i)
    && (forall k: nat | k < |s.events| :: s.events[k].no < |s.calls| && s.calls[s.events[k].no].place == Logged(k))
  }

  /** Calls, threads and events point at each other: every call has exactly one owner, namely
      the thread that still owes its event or the event itself. */
  ghost predicate CallsOk(s: Engine) {
    && |s.calls| == s.nextNo == |s.events| + Sum(Owes, s.pcs)
    && ThreadsPointToCalls(s)
    && CallsPointToThreads(s)
    && CallsMatchEvents(s)
  }

  /** Steps between a call's first and its event change no ownership. */
  ghost predicate SameOwners(s: Engine, s': Engine, t: nat) {
    && t < |s.pcs| == |s'.pcs| && s'.pcs == s.pcs[t := s'.pcs[t]]
    && Owes(s'.pcs[t]) == Owes(s.pcs[t])
    && (!s'.pcs[t].Ready? ==> !s.pcs[t].Ready? && s'.pcs[t].no == s.pcs[t].no && s'.pcs[t].ctx == s.pcs[t].ctx)
    && s'.nextNo == s.nextNo && s'.events == s.events && |s'.calls| == |s.calls|
    && (forall i | 0 <= i < |s.calls| :: s'.calls[i].ctx == s.calls[i].ctx && s'.calls[i].place == s.calls[i].place)
  }

  lemma SameOwnersKeepThreads(s: Engine, s': Engine, t: nat)
    requires ThreadsPointToCalls(s) && SameOwners(s, s', t)
    ensures ThreadsPointToCalls(s')
  {
  }

  lemma SameOwnersKeepOwners(s: Engine, s': Engine, t: nat)
    requires CallsPointToThreads(s) && SameOwners(s, s', t)
    ensures CallsPointToThreads(s')
  {
    forall i: nat | i < |s'.calls| && s'.calls[i].place.At?
      ensures
        var u := s'.calls[i].place.t;
        u < |s'.pcs| && Owes(s'.pcs[u]) == 1 && s'.pcs[u].no == i
    {
      assert s.calls[i].place == s'.calls[i].place;
    }
  }

  lemma SameOwnersKeepEvents(s: Engine, s': Engine, t: nat)
    requires CallsMatchEvents(s) && SameOwners(s, s', t)
    ensures CallsMatchEvents(s')
  {
  }

  lemma SameOwnersKeepCalls(s: Engine, s': Engine, t: nat)
    requires CallsOk(s) && SameOwners(s, s', t)
    ensures CallsOk(s')
  {
    SumUpdate(Owes, s.pcs, t, s'.pcs[t]);
    SameOwnersKeepThreads(s, s', t);
    SameOwnersKeepOwners(s, s', t);
    SameOwnersKeepEvents(s, s', t);
  }

  lemma StartKeepsCalls(cfg: Config, s: Engine, t: nat, ctx: OpContext)
    requires CallsOk(s) && Enabled(s, Start(t, ctx))
    ensures CallsOk(Apply(cfg, s, Start(t, ctx)))
  {
    SumUpdate(Owes, s.pcs, t, Numbered(s.nextNo, ctx));
  }

  /** The event takes over the call from its thread. */
  lemma EmitHandsOver(s: Engine, t: nat)
    requires CallsOk(s) && Enabled(s, Emit(t))
    ensures ThreadsPointToCalls(ApplyEmit(s, t)) && CallsPointToThreads(ApplyEmit(s, t))
  {
    assert s.calls[s.pcs[t].no].place == At(t);
  }

  lemma EmitKeepsCalls(s: Engine, t: nat)
    requires CallsOk(s) && Enabled(s, Emit(t))
    ensures CallsOk(ApplyEmit(s, t))
  {
    SumUpdate(Owes, s.pcs, t, ApplyEmit(s, t).pcs[t]);
    EmitHandsOver(s, t);
  }

  lemma MiddleStepKeepsOwners(cfg: Config, s: Engine, step: Step)
    requires Enabled(s, step) && !step.Start? && !step.Emit?
    ensures SameOwners(s, Apply(cfg, s, step), step.t)
  {
  }

  lemma StepKeepsCalls(cfg: Config, s: Engine, step: Step)
    requires CallsOk(s) && Enabled(s, step)
    ensures CallsOk(Apply(cfg, s, step))
  {
    if step.Start? {
      StartKeepsCalls(cfg, s, step.t, step.ctx);
    } else if step.Emit? {
      EmitKeepsCalls(s, step.t);
    } else {
      MiddleStepKeepsOwners(cfg, s, step);
      SameOwnersKeepCalls(s, Apply(cfg, s, step), step.t);
    }
  }

  // ---------------------------------------------------------------- fates

  /** An event tells its call's context, and the injection or the refusal that the call met. */
  predicate Tells(e: Event, c: Call) {
    && e.op == c.ctx.op && e.ino == c.ctx.ino && e.offset == c.ctx.offset && e.len == c.ctx.len
    && match c.fate
       case Pending => false
       case TurnedAway => e.errno == Some(EAGAIN) && e.latency == 0 && e.delay == 0.0
       case Served(inj, delay) =>
         e.latency == inj.latency && e.delay == delay && (inj.fault.Some? ==> e.errno == inj.fault)
  }

  /** The fate that a thread's pc says about its call. */
  predicate FateMatches(pc: Pc, fate: Fate)
    requires Owes(pc) == 1
  {
    match pc
    case Refused(_, _) => fate == TurnedAway
    case Charged(_, _, inj, delay) => fate == Served(inj, delay)
    case Finished(_, _, inj, delay, errno) => fate == Served(inj, delay) && (inj.fault.Some? ==> errno == inj.fault)
    case _ => fate == Pending
  }

  ghost predicate FatesOk(cfg: Config, s: Engine)
    requires CallsOk(s)
  {
    && (forall t: nat | t < |s.pcs| && Owes(s.pcs[t]) == 1 :: FateMatches(s.pcs[t], s.calls[s.pcs[t].no].fate))
    && (forall i: nat | i < |s.calls| && s.calls[i].fate.Served? ::
          s.calls[i].fate.inj == Inject(cfg, s.calls[i].ctx, i))
    && (forall k: nat | k < |s.events| :: Tells(s.events[k], s.calls[s.events[k].no]))
  }

  /** Thread `t`, which owes its event, moves on to `pc` with the fate `fate`. */
  predicate Settles(cfg: Config, s: Engine, s': Engine, t: nat, pc: Pc, fate: Fate) {
    && t < |s.pcs| && Owes(s.pcs[t]) == 1 == Owes(pc) && s.pcs[t].no == pc.no < |s.calls|
    && s'.pcs == s.pcs[t := pc] && s'.events == s.events
    && s'.calls == s.calls[pc.no := s.calls[pc.no].(fate := fate)]
    && FateMatches(pc, fate)
    && (fate.Served? ==> fate.inj == Inject(cfg, s.calls[pc.no].ctx, pc.no))
  }

  lemma SettlingKeepsFates(cfg: Config, s: Engine, s': Engine, t: nat, pc: Pc, fate: Fate)
    requires CallsOk(s) && CallsOk(s') && FatesOk(cfg, s) && Settles(cfg, s, s', t, pc, fate)
    ensures FatesOk(cfg, s')
  {
    forall u: nat | u < |s'.pcs| && Owes(s'.pcs[u]) == 1 ensures FateMatches(s'.pcs[u], s'.calls[s'.pcs[u].no].fate) {
      if u != t {
        assert s.calls[s.pcs[u].no].place == At(u);
        assert s.calls[pc.no].place == At(t);
      }
    }
    forall k: nat | k < |s'.events| ensures Tells(s'.events[k], s'.calls[s'.events[k].no]) {
      assert s.calls[s.events[k].no].place == Logged(k);
      assert s.calls[pc.no].place == At(t);
    }
  }

  lemma LimiterStepSettles(cfg: Config, s: Engine, step: Step)
    requires CallsOk(s) && FatesOk(cfg, s) && Enabled(s, step) && Limits(step) && !step.Drop?
    ensures
      var s' := ApplyLimiter(s, step);
      var pc := s'.pcs[step.t];
      Settles(cfg, s, s', step.t, pc, if pc.Refused? then TurnedAway else Pending)
  {
    var pc := s.pcs[step.t];
    assert FateMatches(pc, s.calls[pc.no].fate);
    assert s.calls == s.calls[pc.no := s.calls[pc.no].(fate := s.calls[pc.no].fate)];
  }

  lemma ChargeSettles(cfg: Config, s: Engine, t: nat, now: real)
    requires CallsOk(s) && Enabled(s, Charge(t, now))
    ensures
      var s' := ApplyCharge(cfg, s, t, now);
      Settles(cfg, s, s', t, s'.pcs[t], Served(Inject(cfg, s.pcs[t].ctx, s.pcs[t].no), s'.pcs[t].delay))
  {
  }

  lemma FinishSettles(cfg: Config, s: Engine, t: nat, body: Option<int>)
    requires CallsOk(s) && FatesOk(cfg, s) && Enabled(s, Finish(t, body))
    ensures
      var s' := Apply(cfg, s, Finish(t, body));
      Settles(cfg, s, s', t, s'.pcs[t], Served(s.pcs[t].inj, s.pcs[t].delay))
  {
    var pc := s.pcs[t];
    assert FateMatches(pc, s.calls[pc.no].fate);
    assert s.calls == s.calls[pc.no := s.calls[pc.no].(fate := s.calls[pc.no].fate)];
  }

  lemma EmitKeepsFates(cfg: Config, s: Engine, t: nat)
    requires CallsOk(s) && FatesOk(cfg, s) && Enabled(s, Emit(t)) && CallsOk(ApplyEmit(s, t))
    ensures FatesOk(cfg, ApplyEmit(s, t))
  {
    var s', pc := ApplyEmit(s, t), s.pcs[t];
    assert FateMatches(pc, s.calls[pc.no].fate);
    assert Tells(EventOf(pc), s.calls[pc.no]);
    forall i: nat | i < |s.calls| ensures s'.calls[i].fate == s.calls[i].fate && s'.calls[i].ctx == s.calls[i].ctx {
    }
    forall k: nat | k < |s'.events| ensures Tells(s'.events[k], s'.calls[s'.events[k].no]) {
      if k < |s.events| {
        assert s'.events[k] == s.events[k] && Tells(s.events[k], s.calls[s.events[k].no]);
      }
    }
  }

  lemma StartKeepsFates(cfg: Config, s: Engine, t: nat, ctx: OpContext)
    requires CallsOk(s) && FatesOk(cfg, s) && Enabled(s, Start(t, ctx)) && CallsOk(Apply(cfg, s, Start(t, ctx)))
    ensures FatesOk(cfg, Apply(cfg, s, Start(t, ctx)))
  {
  }

  /** After its event a call only leaves. */
  lemma LeavingKeepsFates(cfg: Config, s: Engine, step: Step)
    requires CallsOk(s) && FatesOk(cfg, s) && Enabled(s, step) && (step.Record? || step.Drop?)
    requires CallsOk(Apply(cfg, s, step))
    ensures FatesOk(cfg, Apply(cfg, s, step))
  {
    var s' := Apply(cfg, s, step);
    assert s'.calls == s.calls && s'.events == s.events && s'.pcs == s.pcs[step.t := s'.pcs[step.t]];
  }

  lemma StepKeepsFates(cfg: Config, s: Engine, step: Step)
    requires CallsOk(s) && FatesOk(cfg, s) && Enabled(s, step) && CallsOk(Apply(cfg, s, step))
    ensures FatesOk(cfg, Apply(cfg, s, step))
  {
    var s', t := Apply(cfg, s, step), step.t;
    match step
    case Start(_, ctx) => StartKeepsFates(cfg, s, t, ctx);
    case Charge(_, now) =>
      ChargeSettles(cfg, s, t, now);
      SettlingKeepsFates(cfg, s, s', t, s'.pcs[t], Served(Inject(cfg, s.pcs[t].ctx, s.pcs[t].no), s'.pcs[t].delay));
    case Finish(_, body) =>
      FinishSettles(cfg, s, t, body);
      SettlingKeepsFates(cfg, s, s', t, s'.pcs[t], Served(s.pcs[t].inj, s.pcs[t].delay));
    case Emit(_) => EmitKeepsFates(cfg, s, t);
    case Record(_) => LeavingKeepsFates(cfg, s, step);
    case Drop(_, _) => LeavingKeepsFates(cfg, s, step);
    case _ =>
      LimiterStepSettles(cfg, s, step);
      SettlingKeepsFates(cfg, s, s', t, s'.pcs[t], if s'.pcs[t].Refused? then TurnedAway else Pending);
  }

  // ---------------------------------------------------------------- metrics

  function OkEventOf(o: nat): Event -> nat {
    (e: Event) => if Idx(e.op) == o && e.errno.None? then 1 else 0
  }

  function ErrEventOf(o: nat): Event -> nat {
    (e: Event) => if Idx(e.op) == o && e.errno.Some? then 1 else 0
  }

  /** Threads between the event and the metrics. */
  function OkUnrecorded(o: nat): Pc -> nat {
    (pc: Pc) => if pc.Told? && Idx(pc.ctx.op) == o && pc.errno.None? then 1 else 0
  }

  function ErrUnrecorded(o: nat): Pc -> nat {
    (pc: Pc) => if (pc.RefusalTold? || (pc.Told? && pc.errno.Some?)) && Idx(pc.ctx.op) == o then 1 else 0
  }

  ghost predicate MetricsOkFor(s: Engine, o: nat)
    requires Shape(s) && o < OPS
  {
    && s.countOk[o] + Sum(OkUnrecorded(o), s.pcs) == Sum(OkEventOf(o), s.events)
    && s.countErr[o] + Sum(ErrUnrecorded(o), s.pcs) == Sum(ErrEventOf(o), s.events)
  }

  lemma PcMoveCounts(s: seq<Pc>, t: nat, pc: Pc, o: nat)
    requires t < |s|
    ensures Sum(OkUnrecorded(o), s[t := pc]) + OkUnrecorded(o)(s[t]) == Sum(OkUnrecorded(o), s) + OkUnrecorded(o)(pc)
    ensures Sum(ErrUnrecorded(o), s[t := pc]) + ErrUnrecorded(o)(s[t]) ==
            Sum(ErrUnrecorded(o), s) + ErrUnrecorded(o)(pc)
  {
    SumUpdate(OkUnrecorded(o), s, t, pc);
    SumUpdate(ErrUnrecorded(o), s, t, pc);
  }

  lemma EmitKeepsMetrics(s: Engine, t: nat, o: nat)
    requires Enabled(s, Emit(t)) && o < OPS && MetricsOkFor(s, o)
    ensures MetricsOkFor(ApplyEmit(s, t), o)
  {
    var s' := ApplyEmit(s, t);
    PcMoveCounts(s.pcs, t, s'.pcs[t], o);
    SumAppend(OkEventOf(o), s.events, EventOf(s.pcs[t]));
    SumAppend(ErrEventOf(o), s.events, EventOf(s.pcs[t]));
  }

  /** Recording counts what its thread owed to the metrics. */
  lemma RecordCounts(s: Engine, t: nat, o: nat)
    requires Enabled(s, Record(t)) && o < OPS
    ensures
      var s' := ApplyRecord(s, t);
      && Shape(s') && s'.events == s.events && s'.pcs == s.pcs[t := s'.pcs[t]]
      && OkUnrecorded(o)(s'.pcs[t]) == 0 == ErrUnrecorded(o)(s'.pcs[t])
      && s'.countOk[o] == s.countOk[o] + OkUnrecorded(o)(s.pcs[t])
      && s'.countErr[o] == s.countErr[o] + ErrUnrecorded(o)(s.pcs[t])
  {
  }

  lemma RecordKeepsMetrics(s: Engine, t: nat, o: nat)
    requires Enabled(s, Record(t)) && o < OPS && MetricsOkFor(s, o)
    ensures MetricsOkFor(ApplyRecord(s, t), o)
  {
    RecordCounts(s, t, o);
    PcMoveCounts(s.pcs, t, ApplyRecord(s, t).pcs[t], o);
  }

  lemma OtherStepCountsNothing(cfg: Config, s: Engine, step: Step, o: nat)
    requires Enabled(s, step) && o < OPS && !step.Emit? && !step.Record?
    ensures
      var s' := Apply(cfg, s, step);
      && s'.pcs == s.pcs[step.t := s'.pcs[step.t]] && s'.events == s.events
      && s'.countOk == s.countOk && s'.countErr == s.countErr
      && OkUnrecorded(o)(s'.pcs[step.t]) == OkUnrecorded(o)(s.pcs[step.t]) == 0
      && ErrUnrecorded(o)(s'.pcs[step.t]) == ErrUnrecorded(o)(s.pcs[step.t]) == 0
  {
  }

  lemma StepKeepsMetrics(cfg: Config, s: Engine, step: Step, o: nat)
    requires Enabled(s, step) && o < OPS && MetricsOkFor(s, o) && Shape(Apply(cfg, s, step))
    ensures MetricsOkFor(Apply(cfg, s, step), o)
  {
    if step.Emit? {
      EmitKeepsMetrics(s, step.t, o);
    } else if step.Record? {
      RecordKeepsMetrics(s, step.t, o);
    } else {
      OtherStepCountsNothing(cfg, s, step, o);
      PcMoveCounts(s.pcs, step.t, Apply(cfg, s, step).pcs[step.t], o);
    }
  }

  // ---------------------------------------------------------------- charges

  /** The bytes that a call costs the bucket of operation `o` and tier `tier`. */
  function ChargeOn(cfg: Config, o: nat, tier: Tier): Call -> nat {
    (c: Call) =>
      if c.fate.Served? && Idx(c.ctx.op) == o && IsData(c.ctx.op)
         && SelectTier(Policy(cfg, c.ctx.op), c.ctx.op, c.ctx.requestedLen) == tier
      then c.ctx.len else 0
  }

  function BucketOf(s: Engine, o: nat, tier: Tier): Option<B.Bucket>
    requires Shape(s) && o < OPS
  {
    if tier == Base then s.base[o] else s.large[o]
  }

  function Saturated(n: nat): nat {
    B.SaturatingAdd(n, 0)
  }

  /** A configured bucket has been charged exactly the served calls routed to it. */
  ghost predicate ChargesOkFor(cfg: Config, s: Engine, o: nat, tier: Tier)
    requires Shape(s) && o < OPS
  {
    && (BucketOf(s, o, tier).Some? <==> BandwidthOf(Policy(cfg, ALL[o]), tier).Some?)
    && (BucketOf(s, o, tier).Some? ==>
          BucketOf(s, o, tier).value.totalBytes == Saturated(Sum(ChargeOn(cfg, o, tier), s.calls)))
  }

  lemma ChargeKeepsCharges(cfg: Config, s: Engine, t: nat, now: real, o: nat, tier: Tier)
    requires Enabled(s, Charge(t, now))
    requires s.calls[s.pcs[t].no].ctx == s.pcs[t].ctx && s.calls[s.pcs[t].no].fate == Pending
    requires o < OPS && ChargesOkFor(cfg, s, o, tier)
    ensures ChargesOkFor(cfg, ApplyCharge(cfg, s, t, now), o, tier)
  {
    var w, pc, s' := ChargeOn(cfg, o, tier), s.pcs[t], ApplyCharge(cfg, s, t, now);
    SumUpdate(w, s.calls, pc.no, s'.calls[pc.no]);
    assert s'.calls == s.calls[pc.no := s'.calls[pc.no]];
    assert ALL[Idx(pc.ctx.op)] == pc.ctx.op;
  }

  lemma OtherStepTouchesNoBucket(cfg: Config, s: Engine, step: Step)
    requires Enabled(s, step) && !step.Charge?
    ensures Apply(cfg, s, step).base == s.base && Apply(cfg, s, step).large == s.large
  {
  }

  lemma RefusalChargesNothing(cfg: Config, s: Engine, step: Step, w: Call -> nat)
    requires CallsOk(s) && FatesOk(cfg, s) && Enabled(s, step) && Limits(step)
    requires forall c: Call | !c.fate.Served? :: w(c) == 0
    ensures Sum(w, ApplyLimiter(s, step).calls) == Sum(w, s.calls)
  {
    var pc, s' := s.pcs[step.t], ApplyLimiter(s, step);
    if s'.calls != s.calls {
      assert FateMatches(pc, s.calls[pc.no].fate);
      SumUpdate(w, s.calls, pc.no, s.calls[pc.no].(fate := TurnedAway));
    }
  }

  lemma EmitChargesNothing(s: Engine, t: nat, w: Call -> nat)
    requires Enabled(s, Emit(t))
    requires forall c: Call, p: Place :: w(c.(place := p)) == w(c)
    ensures Sum(w, ApplyEmit(s, t).calls) == Sum(w, s.calls)
  {
    var no := s.pcs[t].no;
    SumUpdate(w, s.calls, no, s.calls[no].(place := Logged(|s.events|)));
  }

  lemma StepKeepsCharges(cfg: Config, s: Engine, step: Step, o: nat, tier: Tier)
    requires CallsOk(s) && FatesOk(cfg, s) && Enabled(s, step) && o < OPS && Shape(Apply(cfg, s, step))
    requires ChargesOkFor(cfg, s, o, tier)
    ensures ChargesOkFor(cfg, Apply(cfg, s, step), o, tier)
  {
    var w := ChargeOn(cfg, o, tier);
    if step.Charge? {
      assert FateMatches(s.pcs[step.t], s.calls[s.pcs[step.t].no].fate);
      ChargeKeepsCharges(cfg, s, step.t, step.now, o, tier);
    } else {
      OtherStepTouchesNoBucket(cfg, s, step);
      if Limits(step) {
        RefusalChargesNothing(cfg, s, step, w);
      } else if step.Start? {
        SumAppend(w, s.calls, Call(step.ctx, At(step.t), Pending));
      } else if step.Emit? {
        EmitChargesNothing(s, step.t, w);
      }
    }
  }

  // ---------------------------------------------------------------- all together

  ghost predicate Inv(cfg: Config, s: Engine) {
    && LimitersOk(cfg, s) && CallsOk(s) && FatesOk(cfg, s)
    && (forall o: nat | o < OPS :: MetricsOkFor(s, o))
    && (forall o: nat, tier: Tier | o < OPS :: ChargesOkFor(cfg, s, o, tier))
  }

  lemma InitShape(cfg: Config, n: nat, now: real)
    ensures
      var s := Init(cfg, n, now);
      && Shape(s) && s.nextNo == 0 && s.events == [] && s.calls == [] && |s.pcs| == n
      && (forall t: nat | t < n :: s.pcs[t] == Ready)
      && (forall o: nat | o < OPS ::
            && s.limiters[o] == L.Init(Policy(cfg, ALL[o]).cap, Policy(cfg, ALL[o]).queueCap, n)
            && s.base[o] == FreshBucket(BandwidthOf(Policy(cfg, ALL[o]), Base), now)
            && s.large[o] == FreshBucket(BandwidthOf(Policy(cfg, ALL[o]), Large), now)
            && s.countOk[o] == 0 && s.countErr[o] == 0)
  {
  }

  lemma QuietStartMetrics(s: Engine, o: nat)
    requires Shape(s) && o < OPS && s.events == [] && s.countOk[o] == 0 && s.countErr[o] == 0
    requires forall t: nat | t < |s.pcs| :: s.pcs[t] == Ready
    ensures MetricsOkFor(s, o)
  {
    SumZero(OkUnrecorded(o), s.pcs);
    SumZero(ErrUnrecorded(o), s.pcs);
  }

  lemma InitInv(cfg: Config, n: nat, now: real)
    ensures Inv(cfg, Init(cfg, n, now))
  {
    var s := Init(cfg, n, now);
    InitShape(cfg, n, now);
    SumZero(Owes, s.pcs);
    forall o: nat | o < OPS ensures L.Inv(s.limiters[o]) && MetricsOkFor(s, o) {
      L.InitInv(Policy(cfg, ALL[o]).cap, Policy(cfg, ALL[o]).queueCap, n);
      QuietStartMetrics(s, o);
    }
    forall o: nat, tier: Tier | o < OPS ensures ChargesOkFor(cfg, s, o, tier) {
      assert tier == Base || tier == Large;
    }
  }

  lemma StepKeepsInv(cfg: Config, s: Engine, step: Step)
    requires Inv(cfg, s) && Enabled(s, step)
    ensures Inv(cfg, Apply(cfg, s, step))
  {
    StepKeepsLimiters(cfg, s, step);
    StepKeepsCalls(cfg, s, step);
    StepKeepsFates(cfg, s, step);
    forall o: nat | o < OPS ensures MetricsOkFor(Apply(cfg, s, step), o) {
      StepKeepsMetrics(cfg, s, step, o);
    }
    forall o: nat, tier: Tier | o < OPS ensures ChargesOkFor(cfg, Apply(cfg, s, step), o, tier) {
      StepKeepsCharges(cfg, s, step, o, tier);
    }
  }

  lemma {:induction false} RunKeepsInv(cfg: Config, s: Engine, steps: seq<Step>)
    requires Inv(cfg, s) && CanRun(cfg, s, steps)
    ensures Inv(cfg, Run(cfg, s, steps))
    decreases |steps|
  {
    if steps != [] {
      StepKeepsInv(cfg, s, steps[0]);
      RunKeepsInv(cfg, Apply(cfg, s, steps[0]), steps[1..]);
    }
  }

  lemma ReachableInv(cfg: Config, s: Engine)
    requires Reachable(cfg, s)
    ensures Inv(cfg, s)
  {
    var n: nat, now: real, steps: seq<Step> :|
      CanRun(cfg, Init(cfg, n, now), steps) && Run(cfg, Init(cfg, n, now), steps) == s;
    InitInv(cfg, n, now);
    RunKeepsInv(cfg, Init(cfg, n, now), steps);
  }

  // ---------------------------------------------------------------- what runs leave alone

  /** A step of a thread changes no call but its own. */
  lemma StepChangesOwnCall(cfg: Config, s: Engine, step: Step)
    requires Enabled(s, step)
    ensures
      var s' := Apply(cfg, s, step);
      && |s'.pcs| == |s.pcs| && s'.pcs == s.pcs[step.t := s'.pcs[step.t]]
      && s.events <= s'.events && |s.calls| <= |s'.calls|
      && (step.Spurious? ==> s'.pcs == s.pcs && s'.calls == s.calls)
      && (Owes(s.pcs[step.t]) == 0 ==> s.calls <= s'.calls)
      && forall i | 0 <= i < |s.calls| && (s.pcs[step.t].Ready? || i != s.pcs[step.t].no) :: s'.calls[i] == s.calls[i]
  {
  }

  /** Contexts never change, and neither does a fate once it is decided. */
  ghost predicate Settled(s: Engine, s': Engine) {
    && |s'.pcs| == |s.pcs| && |s.calls| <= |s'.calls|
    && (forall i | 0 <= i < |s.calls| :: s'.calls[i].ctx == s.calls[i].ctx)
    && (forall i | 0 <= i < |s.calls| && s.calls[i].fate != Pending :: s'.calls[i].fate == s.calls[i].fate)
  }

  lemma OwnCallSettled(cfg: Config, s: Engine, step: Step)
    requires CallsOk(s) && FatesOk(cfg, s) && Enabled(s, step) && !s.pcs[step.t].Ready?
    ensures
      var c, c' := s.calls[s.pcs[step.t].no], Apply(cfg, s, step).calls[s.pcs[step.t].no];
      c'.ctx == c.ctx && (c.fate != Pending ==> c'.fate == c.fate)
  {
    if Owes(s.pcs[step.t]) == 1 {
      assert FateMatches(s.pcs[step.t], s.calls[s.pcs[step.t].no].fate);
    }
  }

  lemma StepSettles(cfg: Config, s: Engine, step: Step)
    requires CallsOk(s) && FatesOk(cfg, s) && Enabled(s, step)
    ensures Settled(s, Apply(cfg, s, step))
  {
    StepChangesOwnCall(cfg, s, step);
    if !s.pcs[step.t].Ready? {
      OwnCallSettled(cfg, s, step);
    }
  }

  lemma {:induction false} RunSettles(cfg: Config, s: Engine, steps: seq<Step>)
    requires Inv(cfg, s) && CanRun(cfg, s, steps)
    ensures Settled(s, Run(cfg, s, steps))
    decreases |steps|
  {
    if steps != [] {
      StepSettles(cfg, s, steps[0]);
      StepKeepsInv(cfg, s, steps[0]);
      RunSettles(cfg, Apply(cfg, s, steps[0]), steps[1..]);
    }
  }

  // ---------------------------------------------------------------- extending runs

  ghost predicate Leads(cfg: Config, start: Engine, steps: seq<Step>, end: Engine) {
    CanRun(cfg, start, steps) && Run(cfg, start, steps) == end
  }

  lemma {:induction false} RunSnoc(cfg: Config, start: Engine, steps: seq<Step>, step: Step)
    requires CanRun(cfg, start, steps) && Enabled(Run(cfg, start, steps), step)
    ensures Leads(cfg, start, steps + [step], Apply(cfg, Run(cfg, start, steps), step))
    decreases |steps|
  {
    if steps == [] {
      assert CanRun(cfg, Apply(cfg, start, step), []);
    } else {
      RunSnoc(cfg, Apply(cfg, start, steps[0]), steps[1..], step);
      assert (steps + [step])[1..] == steps[1..] + [step];
    }
  }

  lemma LeadsOn(cfg: Config, start: Engine, steps: seq<Step>, mid: Engine, step: Step)
    requires Leads(cfg, start, steps, mid) && Enabled(mid, step) && Inv(cfg, mid)
    ensures Leads(cfg, start, steps + [step], Apply(cfg, mid, step)) && Inv(cfg, Apply(cfg, mid, step))
  {
    RunSnoc(cfg, start, steps, step);
    StepKeepsInv(cfg, mid, step);
  }
}
