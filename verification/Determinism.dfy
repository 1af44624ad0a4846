/**
 Reproducibility across schedules: exactly when the outcome of a call is fixed by the
 configuration, its context and its number, and how whole event logs then agree.
 */
module Determinism {
  import opened Sums
  import opened SampleKeys
  import opened EngineProtocol
  import opened EngineInvariant
  import opened EngineTheorems
  import opened ScheduleRuns
  import L = LimiterProtocol
  import LT = LimiterTheorems

  /** Each of `n` threads finds a slot or a place in the queue. */
  predicate RoomFor(policy: OpPolicy, n: nat) {
    policy.cap > 0 && n <= policy.cap + policy.queueCap
  }

  /** There is room for all threads, or every call is refused at once. */
  predicate Predictable(policy: OpPolicy, n: nat) {
    policy.cap == 0 || RoomFor(policy, n)
  }

  ghost predicate AllPredictable(cfg: Config, n: nat) {
    forall op: FsOp :: Predictable(Policy(cfg, op), n)
  }

  // ---------------------------------------------------------------- admission by policy

  /** Served calls are those of operations with slots, refused ones those of operations without. */
  predicate AsPolicySays(cfg: Config, c: Call) {
    match c.fate
    case Pending => true
    case TurnedAway => Policy(cfg, c.ctx.op).cap == 0
    case Served(_, _) => Policy(cfg, c.ctx.op).cap > 0
  }

  ghost predicate PolicyDecides(cfg: Config, s: Engine) {
    forall i | 0 <= i < |s.calls| :: AsPolicySays(cfg, s.calls[i])
  }

  /** A thread that asks for a slot is not counted yet, so the others leave room for it. */
  lemma AskerFindsRoom(cfg: Config, s: Engine, t: nat)
    requires Inv(cfg, s) && t < |s.pcs| && s.pcs[t].Numbered? && RoomFor(Policy(cfg, s.pcs[t].ctx.op), |s.pcs|)
    ensures Load(s, s.pcs[t].ctx.op) < Policy(cfg, s.pcs[t].ctx.op).cap + Policy(cfg, s.pcs[t].ctx.op).queueCap
  {
    var op := s.pcs[t].ctx.op;
    LimiterFacts(cfg, s, op);
    assert PhaseMatches(s.pcs[t], Idx(op), LimiterOf(s, op).threads[t]);
    LT.NewcomerIsNotCounted(LimiterOf(s, op).threads, t);
  }

  lemma HolderHasCap(cfg: Config, s: Engine, t: nat)
    requires Inv(cfg, s) && t < |s.pcs| && s.pcs[t].Admitted?
    ensures Policy(cfg, s.pcs[t].ctx.op).cap > 0
  {
    var op := s.pcs[t].ctx.op;
    LimiterFacts(cfg, s, op);
    assert PhaseMatches(s.pcs[t], Idx(op), LimiterOf(s, op).threads[t]);
    SumAtLeast(L.IsHolding, LimiterOf(s, op).threads, t);
  }

  /** A call that asks for a slot of an operation that has slots finds a slot or room in the queue. */
  ghost predicate AsksWithRoom(cfg: Config, s: Engine, step: Step)
    requires Enabled(s, step)
  {
    step.Acquire? ==>
      var op := s.pcs[step.t].ctx.op;
      Policy(cfg, op).cap == 0 || Load(s, op) < Policy(cfg, op).cap + Policy(cfg, op).queueCap
  }

  lemma AskerAsPolicySays(cfg: Config, s: Engine, t: nat)
    requires Inv(cfg, s) && Enabled(s, Acquire(t)) && AsksWithRoom(cfg, s, Acquire(t))
    requires AsPolicySays(cfg, s.calls[s.pcs[t].no])
    ensures
      var e := Apply(cfg, s, Acquire(t));
      s.pcs[t].no < |e.calls| && AsPolicySays(cfg, e.calls[s.pcs[t].no])
  {
    AcquireOutcome(cfg, s, t);
    OwnCallSettled(cfg, s, Acquire(t));
  }

  /** Only asking for a slot and charging decide a fate: a waiter is never turned away. */
  lemma OtherStepsDecideNothing(cfg: Config, s: Engine, step: Step)
    requires Enabled(s, step) && !s.pcs[step.t].Ready? && !step.Acquire? && !step.Charge?
    ensures
      var e, no := Apply(cfg, s, step), s.pcs[step.t].no;
      no < |e.calls| && e.calls[no].fate == s.calls[no].fate && e.calls[no].ctx == s.calls[no].ctx
  {
  }

  lemma OwnCallAsPolicySays(cfg: Config, s: Engine, step: Step)
    requires Inv(cfg, s) && Enabled(s, step) && !s.pcs[step.t].Ready? && AsksWithRoom(cfg, s, step)
    requires AsPolicySays(cfg, s.calls[s.pcs[step.t].no])
    ensures
      var e := Apply(cfg, s, step);
      s.pcs[step.t].no < |e.calls| && AsPolicySays(cfg, e.calls[s.pcs[step.t].no])
  {
    if step.Acquire? {
      AskerAsPolicySays(cfg, s, step.t);
    } else if step.Charge? {
      HolderHasCap(cfg, s, step.t);
    } else {
      OtherStepsDecideNothing(cfg, s, step);
    }
  }

  lemma StepDecides(cfg: Config, s: Engine, step: Step)
    requires Inv(cfg, s) && Enabled(s, step) && PolicyDecides(cfg, s) && AsksWithRoom(cfg, s, step)
    ensures PolicyDecides(cfg, Apply(cfg, s, step))
  {
    var e := Apply(cfg, s, step);
    StepChangesOwnCall(cfg, s, step);
    StartIsPending(cfg, s, step);
    forall i: nat | i < |e.calls| ensures AsPolicySays(cfg, e.calls[i]) {
      if i < |s.calls| && !s.pcs[step.t].Ready? && i == s.pcs[step.t].no {
        OwnCallAsPolicySays(cfg, s, step);
      } else if i < |s.calls| {
        assert e.calls[i] == s.calls[i];
      }
    }
  }

  lemma StartIsPending(cfg: Config, s: Engine, step: Step)
    requires Enabled(s, step)
    ensures forall i | |s.calls| <= i < |Apply(cfg, s, step).calls| :: Apply(cfg, s, step).calls[i].fate == Pending
  {
  }

  lemma PredictableAsksWithRoom(cfg: Config, s: Engine, step: Step)
    requires Inv(cfg, s) && Enabled(s, step) && AllPredictable(cfg, |s.pcs|)
    ensures AsksWithRoom(cfg, s, step)
  {
    if step.Acquire? && Policy(cfg, s.pcs[step.t].ctx.op).cap > 0 {
      AskerFindsRoom(cfg, s, step.t);
    }
  }

  lemma {:induction false} RunDecides(cfg: Config, s: Engine, steps: seq<Step>)
    requires Inv(cfg, s) && CanRun(cfg, s, steps) && PolicyDecides(cfg, s) && AllPredictable(cfg, |s.pcs|)
    ensures PolicyDecides(cfg, Run(cfg, s, steps))
    decreases |steps|
  {
    if steps != [] {
      StepKeepsInv(cfg, s, steps[0]);
      StepSettles(cfg, s, steps[0]);
      PredictableAsksWithRoom(cfg, s, steps[0]);
      StepDecides(cfg, s, steps[0]);
      RunDecides(cfg, Apply(cfg, s, steps[0]), steps[1..]);
    }
  }

  lemma ReachableDecides(cfg: Config, n: nat, s: Engine)
    requires ReachableWith(cfg, n, s) && AllPredictable(cfg, n)
    ensures PolicyDecides(cfg, s)
  {
    var now: real, steps: seq<Step> :| Leads(cfg, Init(cfg, n, now), steps, s);
    InitInv(cfg, n, now);
    InitShape(cfg, n, now);
    RunDecides(cfg, Init(cfg, n, now), steps);
  }

  // ---------------------------------------------------------------- never refused

  ghost predicate NoneTurnedAway(s: Engine) {
    forall i | 0 <= i < |s.calls| :: s.calls[i].fate != TurnedAway
  }

  /** No schedule of `n` threads ever refuses a call if and only if, for every operation, the slots
      and the queue together have room for all the threads. */
  lemma NeverRefusedIff(cfg: Config, n: nat)
    requires n > 0
    ensures (forall s | ReachableWith(cfg, n, s) :: NoneTurnedAway(s)) <==>
            (forall op: FsOp :: RoomFor(Policy(cfg, op), n))
  {
    if forall op: FsOp :: RoomFor(Policy(cfg, op), n) {
      forall s | ReachableWith(cfg, n, s) ensures NoneTurnedAway(s) {
        ReachableDecides(cfg, n, s);
      }
    } else {
      var op: FsOp :| !RoomFor(Policy(cfg, op), n);
      var steps, s, last := CrowdedOut(cfg, n, OpContext.OpContext(op, 0, 0, 0, 0));
      assert ReachableWith(cfg, n, s);
    }
  }

  // ---------------------------------------------------------------- same outcomes

  /** What a call met, without the waiting: its injection, or a refusal. */
  datatype Outcome = Undecided | Rejected | Injected(inj: Injection)

  function OutcomeOf(c: Call): Outcome {
    match c.fate
    case Pending => Undecided
    case TurnedAway => Rejected
    case Served(inj, _) => Injected(inj)
  }

  /** The same calls, in the order of their numbers. */
  predicate SameCalls(s1: Engine, s2: Engine) {
    |s1.calls| == |s2.calls| && forall i | 0 <= i < |s1.calls| :: s1.calls[i].ctx == s2.calls[i].ctx
  }

  predicate SameOutcomes(s1: Engine, s2: Engine)
    requires SameCalls(s1, s2)
  {
    forall i | 0 <= i < |s1.calls| :: OutcomeOf(s1.calls[i]) == OutcomeOf(s2.calls[i])
  }

  /** The outcome that the configuration gives to call `no` with a context. */
  function FixedOutcome(cfg: Config, ctx: OpContext, no: nat): Outcome {
    if Policy(cfg, ctx.op).cap == 0 then Rejected else Injected(Inject(cfg, ctx, no))
  }

  lemma QuietOutcome(cfg: Config, n: nat, s: Engine, i: nat)
    requires ReachableWith(cfg, n, s) && AllPredictable(cfg, n) && Quiet(s) && i < |s.calls|
    ensures OutcomeOf(s.calls[i]) == FixedOutcome(cfg, s.calls[i].ctx, i)
  {
    ReachableWithInv(cfg, n, s);
    ReachableDecides(cfg, n, s);
    QuietIsDecided(cfg, s, i);
    assert AsPolicySays(cfg, s.calls[i]);
  }

  lemma QuietIsDecided(cfg: Config, s: Engine, i: nat)
    requires Inv(cfg, s) && Quiet(s) && i < |s.calls|
    ensures s.calls[i].fate != Pending
    ensures s.calls[i].fate.Served? ==> s.calls[i].fate.inj == Inject(cfg, s.calls[i].ctx, i)
  {
    assert s.calls[i].place.Logged?;
    assert Tells(s.events[s.calls[i].place.k], s.calls[i]);
  }

  /** With a slot but too little room, the same calls have different outcomes in two schedules: one by
      one all are served, and all at once the last one is refused. */
  lemma AdmissionDependsOnSchedule(cfg: Config, n: nat, ctx: OpContext) returns (s1: Engine, s2: Engine, last: nat)
    requires !Predictable(Policy(cfg, ctx.op), n)
    ensures ReachableWith(cfg, n, s1) && ReachableWith(cfg, n, s2) && Quiet(s1) && Quiet(s2) && SameCalls(s1, s2)
    ensures last < |s1.calls| && s1.calls[last].fate.Served? && s2.calls[last].fate == TurnedAway
  {
    var crowdSteps, crowd;
    crowdSteps, crowd, last := CrowdedOut(cfg, n, ctx);
    var drainSteps;
    drainSteps, s2 := Drained(cfg, n, 0.0, crowdSteps, crowd);
    var calmSteps;
    calmSteps, s1 := OneByOne(cfg, n, seq(last + 1, (i: nat) => Task(0, ctx)));
  }

  /** The outcomes of calls are independent of the schedule if and only if every operation has room
      for all threads, or no slot at all. */
  lemma DeterminismIff(cfg: Config, n: nat)
    ensures
      (forall s1, s2 | ReachableWith(cfg, n, s1) && ReachableWith(cfg, n, s2)
                       && Quiet(s1) && Quiet(s2) && SameCalls(s1, s2) ::
         SameOutcomes(s1, s2))
      <==> AllPredictable(cfg, n)
  {
    if AllPredictable(cfg, n) {
      forall s1, s2, i: nat | ReachableWith(cfg, n, s1) && ReachableWith(cfg, n, s2) && Quiet(s1) && Quiet(s2)
                              && SameCalls(s1, s2) && i < |s1.calls|
        ensures OutcomeOf(s1.calls[i]) == OutcomeOf(s2.calls[i])
      {
        QuietOutcome(cfg, n, s1, i);
        QuietOutcome(cfg, n, s2, i);
      }
    } else {
      var op: FsOp :| !Predictable(Policy(cfg, op), n);
      var s1, s2, last := AdmissionDependsOnSchedule(cfg, n, OpContext.OpContext(op, 0, 0, 0, 0));
      assert OutcomeOf(s1.calls[last]) != OutcomeOf(s2.calls[last]);
    }
  }
}
