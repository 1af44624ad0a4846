/** What the engine promises in every reachable state, over every run, and once it is quiet. */
module EngineTheorems {
  import opened Sums
  import opened Wrappers
  import opened SampleKeys
  import opened EngineProtocol
  import opened EngineInvariant
  import L = LimiterProtocol
  import LT = LimiterTheorems
  import B = TokenBucket

  // ---------------------------------------------------------------- bookkeeping

  /** The counter counts emitted events and calls still to emit; no number is reported twice;
      per operation the metrics lag behind the events by the threads between the two. */
  lemma Bookkeeping(cfg: Config, s: Engine)
    requires Reachable(cfg, s)
    ensures s.nextNo == |s.events| + Sum(Owes, s.pcs)
    ensures forall k, l | 0 <= k < l < |s.events| :: s.events[k].no != s.events[l].no
    ensures forall k | 0 <= k < |s.events| :: s.events[k].no < s.nextNo
    ensures |s.countOk| == OPS && |s.countErr| == OPS
    ensures forall o: nat | o < OPS ::
      && s.countOk[o] + Sum(OkUnrecorded(o), s.pcs) == Sum(OkEventOf(o), s.events)
      && s.countErr[o] + Sum(ErrUnrecorded(o), s.pcs) == Sum(ErrEventOf(o), s.events)
  {
    ReachableInv(cfg, s);
    forall o: nat | o < OPS
      ensures s.countOk[o] + Sum(OkUnrecorded(o), s.pcs) == Sum(OkEventOf(o), s.events)
      ensures s.countErr[o] + Sum(ErrUnrecorded(o), s.pcs) == Sum(ErrEventOf(o), s.events)
    {
      assert MetricsOkFor(s, o);
    }
  }

  function HoldsSlotOf(o: nat): Pc -> nat {
    (pc: Pc) => if HoldsSlot(pc) && Idx(pc.ctx.op) == o then 1 else 0
  }

  /** The slots in use for an operation are exactly the calls between admission and the drop of
      the guard, and never more than the cap. */
  lemma SlotsExact(cfg: Config, s: Engine, op: FsOp)
    requires Reachable(cfg, s)
    ensures |s.limiters| == OPS
    ensures s.limiters[Idx(op)].inflight == Sum(HoldsSlotOf(Idx(op)), s.pcs) <= Policy(cfg, op).cap
  {
    ReachableInv(cfg, s);
    var o := Idx(op);
    forall t: nat | t < |s.pcs| ensures L.IsHolding(s.limiters[o].threads[t]) == HoldsSlotOf(o)(s.pcs[t]) {
      assert PhaseMatches(s.pcs[t], o, s.limiters[o].threads[t]);
    }
    SumPointwise(L.IsHolding, s.limiters[o].threads, HoldsSlotOf(o), s.pcs);
  }

  // ---------------------------------------------------------------- sampling

  /** Two runs of one configuration, with any numbers of threads and any interleavings: calls
      with the same number and context that are served in both get the same injection. */
  lemma ScheduleIndependence(cfg: Config, s1: Engine, s2: Engine, no: nat)
    requires Reachable(cfg, s1) && Reachable(cfg, s2)
    requires no < |s1.calls| && no < |s2.calls| && s1.calls[no].ctx == s2.calls[no].ctx
    requires s1.calls[no].fate.Served? && s2.calls[no].fate.Served?
    ensures s1.calls[no].fate.inj == s2.calls[no].fate.inj
    ensures forall k1, k2 | 0 <= k1 < |s1.events| && 0 <= k2 < |s2.events|
                            && s1.events[k1].no == no == s2.events[k2].no ::
      var fault := s1.calls[no].fate.inj.fault;
      && s1.events[k1].latency == s2.events[k2].latency
      && (fault.Some? ==> s1.events[k1].errno == s2.events[k2].errno == fault)
  {
    ReachableInv(cfg, s1);
    ReachableInv(cfg, s2);
    forall k1, k2 | 0 <= k1 < |s1.events| && 0 <= k2 < |s2.events| && s1.events[k1].no == no == s2.events[k2].no
      ensures
        var fault := s1.calls[no].fate.inj.fault;
        && s1.events[k1].latency == s2.events[k2].latency
        && (fault.Some? ==> s1.events[k1].errno == s2.events[k2].errno == fault)
    {
      assert Tells(s1.events[k1], s1.calls[no]) && Tells(s2.events[k2], s2.calls[no]);
    }
  }

  // ---------------------------------------------------------------- charges

  /** The effective length of a served data call of operation `o`. */
  function ServedBytes(o: nat): Call -> nat {
    (c: Call) => if c.fate.Served? && IsData(c.ctx.op) && Idx(c.ctx.op) == o then c.ctx.len else 0
  }

  lemma {:induction false} TiersPartition(cfg: Config, o: nat, calls: seq<Call>)
    ensures Sum(ChargeOn(cfg, o, Base), calls) + Sum(ChargeOn(cfg, o, Large), calls) == Sum(ServedBytes(o), calls)
  {
    if calls != [] {
      TiersPartition(cfg, o, calls[..|calls| - 1]);
    }
  }

  /** Each configured bucket has reserved the lengths of the served calls that their requested length
      routes to it (up to saturation), faulted ones included; every served data call is routed to
      exactly one tier, and refused or pending calls to none. */
  lemma ChargesConserved(cfg: Config, s: Engine, op: FsOp)
    requires Reachable(cfg, s)
    ensures
      var o := Idx(op);
      && Shape(s)
      && (forall tier: Tier | BandwidthOf(Policy(cfg, op), tier).Some? ::
            && BucketOf(s, o, tier).Some?
            && var bytes := Sum(ChargeOn(cfg, o, tier), s.calls);
               BucketOf(s, o, tier).value.totalBytes == if bytes <= B.U64_MAX then bytes else B.U64_MAX)
      && Sum(ChargeOn(cfg, o, Base), s.calls) + Sum(ChargeOn(cfg, o, Large), s.calls) == Sum(ServedBytes(o), s.calls)
  {
    ReachableInv(cfg, s);
    var o := Idx(op);
    TiersPartition(cfg, o, s.calls);
    forall tier: Tier | BandwidthOf(Policy(cfg, op), tier).Some?
      ensures
        && BucketOf(s, o, tier).Some?
        && var bytes := Sum(ChargeOn(cfg, o, tier), s.calls);
           BucketOf(s, o, tier).value.totalBytes == if bytes <= B.U64_MAX then bytes else B.U64_MAX
    {
      assert ChargesOkFor(cfg, s, o, tier);
    }
  }

  // ---------------------------------------------------------------- drain

  /** No new calls and no spurious wake-ups. */
  predicate DrainStep(step: Step) {
    !step.Start? && !step.Spurious?
  }

  predicate DrainRun(cfg: Config, s: Engine, steps: seq<Step>) {
    CanRun(cfg, s, steps) && forall i | 0 <= i < |steps| :: DrainStep(steps[i])
  }

  predicate Quiet(s: Engine) {
    forall t | 0 <= t < |s.pcs| :: s.pcs[t].Ready?
  }

  function StagesLeft(pc: Pc): nat {
    match pc
    case Ready => 0
    case Numbered(_, _) => 20
    case Queued(_, _) => 10
    case Admitted(_, _) => 9
    case Charged(_, _, _, _) => 8
    case Finished(_, _, _, _, _) => 7
    case Told(_, _, _) => 6
    case Recorded(_, _) => 5
    case Refused(_, _) => 4
    case RefusalTold(_, _) => 3
  }

  function Rank(s: Engine): nat {
    Sum(StagesLeft, s.pcs) + Sum(LT.Rank, s.limiters)
  }

  /** Entering a limiter costs at most six units there. */
  lemma EnterRank(s: L.State, t: nat)
    requires L.Enabled(s, L.Enter(t, false, false))
    ensures
      var s' := L.Apply(s, L.Enter(t, false, false));
      LT.Rank(s') == LT.Rank(s) + LT.Owed(s'.threads[t])
  {
    var s' := L.Apply(s, L.Enter(t, false, false));
    SumUpdate(LT.Owed, s.threads, t, s'.threads[t]);
  }

  /** What a limiter step costs and yields, on the acting thread and on its limiter. */
  lemma LimiterStepPays(s: Engine, step: Step)
    requires Enabled(s, step) && Limits(step) && DrainStep(step)
    requires L.Inv(s.limiters[Idx(s.pcs[step.t].ctx.op)])
    ensures
      var o, s' := Idx(s.pcs[step.t].ctx.op), ApplyLimiter(s, step);
      && s'.pcs == s.pcs[step.t := s'.pcs[step.t]] && s'.limiters == s.limiters[o := s'.limiters[o]]
      && StagesLeft(s'.pcs[step.t]) + LT.Rank(s'.limiters[o]) < StagesLeft(s.pcs[step.t]) + LT.Rank(s.limiters[o])
  {
    var o := Idx(s.pcs[step.t].ctx.op);
    if step.Acquire? {
      EnterRank(s.limiters[o], step.t);
    } else {
      LT.DrainStepPays(s.limiters[o], LimiterStep(step));
    }
  }

  lemma LimiterDrainStepPays(cfg: Config, s: Engine, step: Step)
    requires LimitersOk(cfg, s) && Enabled(s, step) && Limits(step) && DrainStep(step)
    ensures Rank(ApplyLimiter(s, step)) < Rank(s)
  {
    var o, s' := Idx(s.pcs[step.t].ctx.op), ApplyLimiter(s, step);
    LimiterStepPays(s, step);
    SumUpdate(StagesLeft, s.pcs, step.t, s'.pcs[step.t]);
    SumUpdate(LT.Rank, s.limiters, o, s'.limiters[o]);
  }

  /** Every step outside the limiter brings its thread one stage forward. */
  lemma OtherStepAdvances(cfg: Config, s: Engine, step: Step)
    requires Enabled(s, step) && !Limits(step) && DrainStep(step)
    ensures
      var s' := Apply(cfg, s, step);
      && s'.limiters == s.limiters && s'.pcs == s.pcs[step.t := s'.pcs[step.t]]
      && StagesLeft(s'.pcs[step.t]) < StagesLeft(s.pcs[step.t])
  {
  }

  lemma DrainStepPays(cfg: Config, s: Engine, step: Step)
    requires LimitersOk(cfg, s) && Enabled(s, step) && DrainStep(step)
    ensures Rank(Apply(cfg, s, step)) < Rank(s)
  {
    if Limits(step) {
      LimiterDrainStepPays(cfg, s, step);
    } else {
      OtherStepAdvances(cfg, s, step);
      SumUpdate(StagesLeft, s.pcs, step.t, Apply(cfg, s, step).pcs[step.t]);
    }
  }

  lemma DrainStepKeeps(cfg: Config, s: Engine, step: Step)
    requires Inv(cfg, s) && Enabled(s, step) && DrainStep(step)
    ensures Inv(cfg, Apply(cfg, s, step)) && Rank(Apply(cfg, s, step)) < Rank(s)
  {
    StepKeepsInv(cfg, s, step);
    DrainStepPays(cfg, s, step);
  }

  lemma {:induction false} DrainPays(cfg: Config, s: Engine, steps: seq<Step>)
    requires Inv(cfg, s) && DrainRun(cfg, s, steps)
    ensures Rank(Run(cfg, s, steps)) + |steps| <= Rank(s)
    decreases |steps|
  {
    if steps != [] {
      var next, rest := Apply(cfg, s, steps[0]), steps[1..];
      DrainStepKeeps(cfg, s, steps[0]);
      assert forall i | 0 <= i < |rest| :: rest[i] == steps[i + 1];
      DrainPays(cfg, next, rest);
    }
  }

  /** The limiter step with which a thread that holds or may re-check a slot goes on. */
  lemma ActiveThreadCanStep(cfg: Config, s: Engine, t: nat) returns (step: Step)
    requires Inv(cfg, s) && t < |s.pcs| && !s.pcs[t].Ready?
    requires
      var phase := s.limiters[Idx(s.pcs[t].ctx.op)].threads[t];
      phase.Parked? ==> !s.pcs[t].Queued?
    ensures Enabled(s, step) && DrainStep(step) && step.t == t
  {
    var pc := s.pcs[t];
    var lim := s.limiters[Idx(pc.ctx.op)];
    assert PhaseMatches(pc, Idx(pc.ctx.op), lim.threads[t]);
    match pc
    case Numbered(_, _) => step := Acquire(t);
    case Queued(_, _) => step := Resume(t);
    case Admitted(_, _) => step := Charge(t, 0.0);
    case Charged(_, _, _, _) => step := Finish(t, None);
    case Finished(_, _, _, _, _) => step := Emit(t);
    case Refused(_, _) => step := Emit(t);
    case Told(_, _, _) => step := Record(t);
    case RefusalTold(_, _) => step := Record(t);
    case Recorded(_, _) =>
      if L.NoneParked(lim) {
        step := Drop(t, None);
      } else {
        var u: nat :| u < |lim.threads| && lim.threads[u].Parked?;
        step := Drop(t, Some(u));
      }
  }

  /** While some call is unfinished, some thread can go on: a parked one is backed by another
      thread of its limiter that holds a slot or is about to re-check. */
  lemma DrainNeverSticks(cfg: Config, s: Engine) returns (step: Step)
    requires Inv(cfg, s) && !Quiet(s)
    ensures Enabled(s, step) && DrainStep(step)
  {
    var t: nat :| t < |s.pcs| && !s.pcs[t].Ready?;
    var o := Idx(s.pcs[t].ctx.op);
    if s.pcs[t].Queued? && s.limiters[o].threads[t].Parked? {
      var u := LT.SomeoneActive(s.limiters[o], t);
      assert PhaseMatches(s.pcs[u], o, s.limiters[o].threads[u]);
      step := ActiveThreadCanStep(cfg, s, u);
    } else {
      step := ActiveThreadCanStep(cfg, s, t);
    }
  }

  lemma LimiterRankBound(cfg: Config, s: Engine)
    requires LimitersOk(cfg, s)
    ensures Sum(LT.Rank, s.limiters) <= 7 * |s.pcs| * OPS
  {
    forall o | 0 <= o < OPS ensures LT.Rank(s.limiters[o]) <= 7 * |s.pcs| {
      SumBound(LT.Owed, s.limiters[o].threads, 7);
    }
    SumBound(LT.Rank, s.limiters, 7 * |s.pcs|);
  }

  /** Some event reports call `no`. */
  predicate Reported(s: Engine, no: nat) {
    exists k :: 0 <= k < |s.events| && s.events[k].no == no
  }

  /** Every number up to the counter is reported by exactly one event. */
  ghost predicate ReportedOnce(s: Engine) {
    && |s.events| == s.nextNo
    && (forall no: nat | no < s.nextNo :: Reported(s, no))
    && (forall k, l | 0 <= k < l < |s.events| :: s.events[k].no != s.events[l].no)
  }

  ghost predicate SlotsReturned(s: Engine) {
    forall o: nat | o < |s.limiters| :: s.limiters[o].inflight == 0 && s.limiters[o].queued == 0
  }

  /** In a quiet state every slot is back, the queues are empty, every number 0 .. nextNo - 1 is
      reported by exactly one event, and the metrics are the events counted. */
  lemma QuietState(cfg: Config, s: Engine)
    requires Inv(cfg, s) && Quiet(s)
    ensures SlotsReturned(s) && ReportedOnce(s)
    ensures forall o: nat | o < OPS ::
      s.countOk[o] == Sum(OkEventOf(o), s.events) && s.countErr[o] == Sum(ErrEventOf(o), s.events)
  {
    SumZero(Owes, s.pcs);
    forall o: nat | o < OPS
      ensures s.limiters[o].inflight == 0 && s.limiters[o].queued == 0
      ensures s.countOk[o] == Sum(OkEventOf(o), s.events) && s.countErr[o] == Sum(ErrEventOf(o), s.events)
    {
      assert L.Inv(s.limiters[o]) && MetricsOkFor(s, o);
      assert forall t: nat | t < |s.pcs| :: PhaseMatches(s.pcs[t], o, s.limiters[o].threads[t]);
      SumZero(L.IsHolding, s.limiters[o].threads);
      SumZero(L.IsQueued, s.limiters[o].threads);
      SumZero(OkUnrecorded(o), s.pcs);
      SumZero(ErrUnrecorded(o), s.pcs);
    }
    forall no: nat | no < s.nextNo ensures Reported(s, no) {
      assert s.calls[no].place.Logged?;
      assert s.events[s.calls[no].place.k].no == no;
    }
  }

  lemma RankBound(cfg: Config, s: Engine)
    requires LimitersOk(cfg, s)
    ensures Rank(s) <= 97 * |s.pcs|
  {
    SumBound(StagesLeft, s.pcs, 20);
    LimiterRankBound(cfg, s);
  }

  lemma StuckIsQuiet(cfg: Config, s: Engine)
    requires Inv(cfg, s)
    ensures (forall step | Enabled(s, step) :: !DrainStep(step)) ==> Quiet(s) && SlotsReturned(s) && ReportedOnce(s)
  {
    if Quiet(s) {
      QuietState(cfg, s);
    } else {
      var step := DrainNeverSticks(cfg, s);
    }
  }

  /** From every reachable state, however the threads interleave, a drain is bounded, and one that
      cannot be continued is quiet: all slots returned on all paths, one event per call. */
  lemma {:induction false} Drain(cfg: Config, s: Engine, steps: seq<Step>)
    requires Reachable(cfg, s) && DrainRun(cfg, s, steps)
    ensures |steps| <= 97 * |s.pcs|
    ensures
      var e := Run(cfg, s, steps);
      (forall step | Enabled(e, step) :: !DrainStep(step)) ==>
        Quiet(e) && SlotsReturned(e) && ReportedOnce(e)
  {
    ReachableInv(cfg, s);
    DrainPays(cfg, s, steps);
    RankBound(cfg, s);
    RunKeepsInv(cfg, s, steps);
    StuckIsQuiet(cfg, Run(cfg, s, steps));
  }

  lemma DrainRunCons(cfg: Config, s: Engine, step: Step, rest: seq<Step>)
    requires Enabled(s, step) && DrainStep(step) && DrainRun(cfg, Apply(cfg, s, step), rest)
    ensures DrainRun(cfg, s, [step] + rest) && Run(cfg, s, [step] + rest) == Run(cfg, Apply(cfg, s, step), rest)
  {
    assert ([step] + rest)[1..] == rest;
  }

  /** Such a complete drain exists. */
  lemma {:induction false} DrainCompletes(cfg: Config, s: Engine) returns (steps: seq<Step>)
    requires Inv(cfg, s)
    ensures DrainRun(cfg, s, steps) && Quiet(Run(cfg, s, steps))
    decreases Rank(s)
  {
    if Quiet(s) {
      steps := [];
    } else {
      var step := DrainNeverSticks(cfg, s);
      DrainStepKeeps(cfg, s, step);
      var rest := DrainCompletes(cfg, Apply(cfg, s, step));
      DrainRunCons(cfg, s, step, rest);
      steps := [step] + rest;
    }
  }

  // ---------------------------------------------------------------- one thread

  ghost predicate CapsPositive(cfg: Config) {
    forall op: FsOp :: Policy(cfg, op).cap > 0
  }

  /** A single thread is never refused or queued, and reports its calls in order. */
  ghost predicate SoloOk(s: Engine) {
    && |s.pcs| == 1
    && !s.pcs[0].Queued? && !s.pcs[0].Refused? && !s.pcs[0].RefusalTold?
    && (Owes(s.pcs[0]) == 1 ==> s.pcs[0].no == |s.events|)
    && (forall k | 0 <= k < |s.events| :: s.events[k].no == k)
    && (forall i | 0 <= i < |s.calls| :: !s.calls[i].fate.TurnedAway?)
  }

  lemma SoloIsAdmitted(cfg: Config, s: Engine)
    requires Inv(cfg, s) && CapsPositive(cfg) && SoloOk(s) && Enabled(s, Acquire(0))
    ensures Apply(cfg, s, Acquire(0)).pcs[0].Admitted?
  {
    var o := Idx(s.pcs[0].ctx.op);
    var lim := s.limiters[o];
    assert PhaseMatches(s.pcs[0], o, lim.threads[0]);
    SumZero(L.IsHolding, lim.threads);
    assert L.Inv(lim) && lim.cap == Policy(cfg, ALL[o]).cap;
  }

  lemma SoloCounts(s: Engine)
    requires CallsOk(s) && |s.pcs| == 1
    ensures |s.calls| == s.nextNo == |s.events| + Owes(s.pcs[0])
  {
    assert s.pcs[..0] == [];
    assert Sum(Owes, s.pcs) == Owes(s.pcs[0]);
  }

  lemma LimiterStepKeepsSolo(cfg: Config, s: Engine, step: Step)
    requires Inv(cfg, s) && CapsPositive(cfg) && SoloOk(s) && Enabled(s, step) && Limits(step)
    ensures SoloOk(Apply(cfg, s, step))
  {
    if step.Acquire? {
      SoloIsAdmitted(cfg, s);
    }
  }

  lemma OtherStepKeepsSolo(cfg: Config, s: Engine, step: Step)
    requires SoloOk(s) && Enabled(s, step) && !Limits(step)
    requires s.nextNo == |s.events| + Owes(s.pcs[0])
    ensures SoloOk(Apply(cfg, s, step))
  {
  }

  lemma StepKeepsSolo(cfg: Config, s: Engine, step: Step)
    requires Inv(cfg, s) && CapsPositive(cfg) && SoloOk(s) && Enabled(s, step)
    ensures SoloOk(Apply(cfg, s, step))
  {
    if Limits(step) {
      LimiterStepKeepsSolo(cfg, s, step);
    } else {
      SoloCounts(s);
      OtherStepKeepsSolo(cfg, s, step);
    }
  }

  lemma {:induction false} RunKeepsSolo(cfg: Config, s: Engine, steps: seq<Step>)
    requires Inv(cfg, s) && CapsPositive(cfg) && SoloOk(s) && CanRun(cfg, s, steps)
    ensures SoloOk(Run(cfg, s, steps))
    decreases |steps|
  {
    if steps != [] {
      StepKeepsInv(cfg, s, steps[0]);
      StepKeepsSolo(cfg, s, steps[0]);
      RunKeepsSolo(cfg, Apply(cfg, s, steps[0]), steps[1..]);
    }
  }

  /** Replay: a finished single-threaded run with positive caps refuses nothing, and its events
      tell, in order, the injections that configuration and contexts determine. */
  lemma Replay(cfg: Config, now: real, steps: seq<Step>)
    requires CapsPositive(cfg) && CanRun(cfg, Init(cfg, 1, now), steps)
    requires Quiet(Run(cfg, Init(cfg, 1, now), steps))
    ensures
      var s := Run(cfg, Init(cfg, 1, now), steps);
      && |s.events| == |s.calls|
      && (forall k: nat | k < |s.calls| ::
            var inj := Inject(cfg, s.calls[k].ctx, k);
            && s.events[k].no == k && s.calls[k].fate.Served? && s.calls[k].fate.inj == inj
            && s.events[k].latency == inj.latency && (inj.fault.Some? ==> s.events[k].errno == inj.fault))
  {
    var s := Run(cfg, Init(cfg, 1, now), steps);
    InitInv(cfg, 1, now);
    RunKeepsInv(cfg, Init(cfg, 1, now), steps);
    RunKeepsSolo(cfg, Init(cfg, 1, now), steps);
    QuietState(cfg, s);
    forall k: nat | k < |s.calls|
      ensures
        var inj := Inject(cfg, s.calls[k].ctx, k);
        && s.events[k].no == k && s.calls[k].fate.Served? && s.calls[k].fate.inj == inj
        && s.events[k].latency == inj.latency && (inj.fault.Some? ==> s.events[k].errno == inj.fault)
    {
      assert Tells(s.events[k], s.calls[k]);
    }
  }
}
