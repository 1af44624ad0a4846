/** Exactly when every schedule of a workload gives its calls the same outcomes. */
module WorkloadOutcomes {
  import opened Sums
  import opened SampleKeys
  import opened EngineProtocol
  import opened EngineInvariant
  import opened ScheduleRuns
  import opened Determinism
  import opened SamplerBinding
  import opened Workloads
  import L = LimiterProtocol

  // ---------------------------------------------------------------- nobody in the way

  /** Only thread `t` makes calls of operations that have slots. */
  ghost predicate Calm(cfg: Config, s: Engine, t: nat) {
    forall u | 0 <= u < |s.pcs| && u != t && !s.pcs[u].Ready? :: Policy(cfg, s.pcs[u].ctx.op).cap == 0
  }

  predicate CalmTask(cfg: Config, task: Task, t: nat) {
    task.t == t || Policy(cfg, task.ctx.op).cap == 0
  }

  ghost predicate CalmOrder(cfg: Config, order: seq<Task>, t: nat) {
    forall k | 0 <= k < |order| :: CalmTask(cfg, order[k], t)
  }

  lemma StepKeepsContext(cfg: Config, s: Engine, step: Step)
    requires Enabled(s, step)
    ensures
      var pc, pc' := s.pcs[step.t], Apply(cfg, s, step).pcs[step.t];
      && Apply(cfg, s, step).pcs == s.pcs[step.t := pc']
      && (pc'.Ready? || (step.Start? && pc'.ctx == step.ctx) || (!pc.Ready? && pc'.ctx == pc.ctx))
  {
  }

  lemma StepStaysCalm(cfg: Config, s: Engine, step: Step, t: nat)
    requires Enabled(s, step) && Calm(cfg, s, t) && CalmOrder(cfg, StartOf(step), t)
    ensures Calm(cfg, Apply(cfg, s, step), t)
  {
    StepKeepsContext(cfg, s, step);
    if step.Start? {
      assert CalmTask(cfg, StartOf(step)[0], t);
    }
  }

  /** Nobody else holds or waits for a slot that thread `t` may ask for. */
  lemma CalmAsksWithRoom(cfg: Config, s: Engine, step: Step, t: nat)
    requires Inv(cfg, s) && Enabled(s, step) && Calm(cfg, s, t)
    ensures AsksWithRoom(cfg, s, step)
  {
    if step.Acquire? && Policy(cfg, s.pcs[step.t].ctx.op).cap > 0 {
      var op := s.pcs[step.t].ctx.op;
      var lim := LimiterOf(s, op);
      LimiterFacts(cfg, s, op);
      forall u: nat | u < |s.pcs| ensures lim.threads[u].Idle? {
        assert PhaseMatches(s.pcs[u], Idx(op), lim.threads[u]);
        if !s.pcs[u].Ready? {
          DiscriminantsDiffer(s.pcs[u].ctx.op, op);
        }
      }
      SumZero(L.IsHolding, lim.threads);
      SumZero(L.IsQueued, lim.threads);
    }
  }

  lemma {:induction false} CalmRunDecides(cfg: Config, s: Engine, steps: seq<Step>, t: nat)
    requires Inv(cfg, s) && PolicyDecides(cfg, s) && Calm(cfg, s, t)
    requires CanRun(cfg, s, steps) && CalmOrder(cfg, Starts(steps), t)
    ensures PolicyDecides(cfg, Run(cfg, s, steps))
    decreases |steps|
  {
    if steps != [] {
      CalmParts(cfg, StartOf(steps[0]), Starts(steps[1..]), t);
      CalmAsksWithRoom(cfg, s, steps[0], t);
      StepKeepsInv(cfg, s, steps[0]);
      StepDecides(cfg, s, steps[0]);
      StepStaysCalm(cfg, s, steps[0], t);
      CalmRunDecides(cfg, Apply(cfg, s, steps[0]), steps[1..], t);
    }
  }

  lemma CalmParts(cfg: Config, first: seq<Task>, rest: seq<Task>, t: nat)
    requires CalmOrder(cfg, first + rest, t)
    ensures CalmOrder(cfg, first, t) && CalmOrder(cfg, rest, t)
  {
    forall k | 0 <= k < |rest| ensures CalmTask(cfg, rest[k], t) {
      assert (first + rest)[|first| + k] == rest[k];
    }
    forall k | 0 <= k < |first| ensures CalmTask(cfg, first[k], t) {
      assert (first + rest)[k] == first[k];
    }
  }

  /** Then every call has the outcome that configuration, context and number fix. */
  lemma CalmOutcome(cfg: Config, progs: seq<seq<OpContext>>, now: real, steps: seq<Step>, t: nat, k: nat)
    requires Performs(cfg, progs, now, steps) && CalmOrder(cfg, Starts(steps), t) && k < |Starts(steps)|
    ensures
      var s := Run(cfg, Init(cfg, |progs|, now), steps);
      && |s.calls| == |Starts(steps)| && s.calls[k].ctx == Starts(steps)[k].ctx
      && OutcomeOf(s.calls[k]) == FixedOutcome(cfg, Starts(steps)[k].ctx, k)
  {
    var init := Init(cfg, |progs|, now);
    var s := Run(cfg, init, steps);
    InitInv(cfg, |progs|, now);
    InitShape(cfg, |progs|, now);
    RunKeepsInv(cfg, init, steps);
    RunNumbersCalls(cfg, init, steps);
    CalmRunDecides(cfg, init, steps, t);
    assert s.calls[|init.calls| + k].ctx == Starts(steps)[k].ctx;
    QuietIsDecided(cfg, s, k);
    assert AsPolicySays(cfg, s.calls[k]);
  }

  // ---------------------------------------------------------------- somebody in the way

  /** Whatever the generator: if another thread has something to do, a call of an operation with slots
      can draw its latency from two different seeds. */
  lemma NumbersAreARace(cfg: Config, seed: bv64, rng: Rng, progs: seq<seq<OpContext>>, t: nat, u: nat, j: nat)
    returns (a: seq<Step>, b: seq<Step>)
    requires cfg.samplers == SamplersFor(seed, rng)
    requires t < |progs| && u < |progs| && t != u && progs[u] != [] && j < |progs[t]|
    requires Policy(cfg, progs[t][j].op).cap > 0
    ensures Performs(cfg, progs, 0.0, a) && Performs(cfg, progs, 0.0, b)
    ensures IsNumber(Starts(a), t, j, j) && IsNumber(Starts(b), t, j, j + 1)
    ensures LatencySeed(seed, KeyOf(progs[t][j], j)) != LatencySeed(seed, KeyOf(progs[t][j], j + 1))
    ensures HasLatency(Run(cfg, Init(cfg, |progs|, 0.0), a), j,
                       rng.latency(ProfileOf(cfg, progs[t][j]), LatencySeed(seed, KeyOf(progs[t][j], j))))
    ensures HasLatency(Run(cfg, Init(cfg, |progs|, 0.0), b), j + 1,
                       rng.latency(ProfileOf(cfg, progs[t][j]), LatencySeed(seed, KeyOf(progs[t][j], j + 1))))
  {
    a, b := NumberMoves(cfg, progs, t, u, j);
    SameCallOtherSeed(seed, progs[t][j], j);
    ServedLatency(cfg, seed, rng, Run(cfg, Init(cfg, |progs|, 0.0), a), Starts(a), j);
    ServedLatency(cfg, seed, rng, Run(cfg, Init(cfg, |progs|, 0.0), b), Starts(b), j + 1);
  }

  /** Call `k` is served, with this latency. */
  predicate HasLatency(s: Engine, k: nat, latency: nat) {
    k < |s.calls| && s.calls[k].fate.Served? && s.calls[k].fate.inj.latency == latency
  }

  lemma ServedLatency(cfg: Config, seed: bv64, rng: Rng, s: Engine, order: seq<Task>, k: nat)
    requires cfg.samplers == SamplersFor(seed, rng) && Inv(cfg, s) && HasRun(cfg, s, order)
    requires k < |order| && Policy(cfg, order[k].ctx.op).cap > 0
    ensures HasLatency(s, k, rng.latency(ProfileOf(cfg, order[k].ctx), LatencySeed(seed, KeyOf(order[k].ctx, k))))
  {
    InjectedLatency(cfg, seed, rng, order[k].ctx, k);
  }

  // ---------------------------------------------------------------- same outcomes

  /** Calls of the same place in the same program have the same outcome. */
  ghost predicate SameByCall(s1: Engine, o1: seq<Task>, s2: Engine, o2: seq<Task>) {
    forall t: nat, j: nat, k1: nat, k2: nat | IsNumber(o1, t, j, k1) && IsNumber(o2, t, j, k2) ::
      k1 < |s1.calls| && k2 < |s2.calls| && OutcomeOf(s1.calls[k1]) == OutcomeOf(s2.calls[k2])
  }

  /** All schedules give every call of the workload the same outcome. */
  ghost predicate OutcomesFixed(cfg: Config, progs: seq<seq<OpContext>>) {
    forall now1, a, now2, b | Performs(cfg, progs, now1, a) && Performs(cfg, progs, now2, b) ::
      SameByCall(Run(cfg, Init(cfg, |progs|, now1), a), Starts(a), Run(cfg, Init(cfg, |progs|, now2), b), Starts(b))
  }

  function ConfigFor(ops: map<FsOp, OpPolicy>, seed: bv64, rng: Rng): Config {
    Config(ops, SamplersFor(seed, rng))
  }

  /** Every call is of an operation without slots. */
  predicate AllClosed(ops: map<FsOp, OpPolicy>, progs: seq<seq<OpContext>>) {
    forall t, j | 0 <= t < |progs| && 0 <= j < |progs[t]| :: progs[t][j].op in ops && ops[progs[t][j].op].cap == 0
  }

  lemma SoleOutcome(cfg: Config, progs: seq<seq<OpContext>>, now: real, steps: seq<Step>, t: nat, j: nat, k: nat)
    requires OneProgram(progs) && Performs(cfg, progs, now, steps) && IsNumber(Starts(steps), t, j, k)
    ensures t < |progs| && j < |progs[t]|
    ensures
      var s := Run(cfg, Init(cfg, |progs|, now), steps);
      k < |s.calls| && OutcomeOf(s.calls[k]) == FixedOutcome(cfg, progs[t][j], j)
  {
    SoleNumbers(cfg, progs, now, steps, t, j, k);
    NumberedCall(Starts(steps), t, j, k);
    CalmOutcome(cfg, progs, now, steps, t, k);
  }

  lemma ClosedOutcome(cfg: Config, progs: seq<seq<OpContext>>, now: real, steps: seq<Step>, k: nat)
    requires AllClosed(cfg.ops, progs) && Performs(cfg, progs, now, steps) && k < |Starts(steps)|
    ensures
      var s := Run(cfg, Init(cfg, |progs|, now), steps);
      k < |s.calls| && OutcomeOf(s.calls[k]) == Rejected
  {
    var order := Starts(steps);
    StartsHaveThreads(cfg, Init(cfg, |progs|, now), steps);
    forall i | 0 <= i < |order| ensures Policy(cfg, order[i].ctx.op).cap == 0 {
      var t, j := order[i].t, |Program(order[..i], order[i].t)|;
      NumberedCall(order, t, j, i);
      assert progs[t][j] == order[i].ctx;
    }
    assert CalmOrder(cfg, order, 0);
    CalmOutcome(cfg, progs, now, steps, 0, k);
  }

  lemma FixedIfSoleOrClosed(cfg: Config, progs: seq<seq<OpContext>>)
    requires OneProgram(progs) || AllClosed(cfg.ops, progs)
    ensures OutcomesFixed(cfg, progs)
  {
    forall now1, a, now2, b, t: nat, j: nat, k1: nat, k2: nat |
      && Performs(cfg, progs, now1, a) && Performs(cfg, progs, now2, b)
      && IsNumber(Starts(a), t, j, k1) && IsNumber(Starts(b), t, j, k2)
      ensures
        var s1, s2 := Run(cfg, Init(cfg, |progs|, now1), a), Run(cfg, Init(cfg, |progs|, now2), b);
        k1 < |s1.calls| && k2 < |s2.calls| && OutcomeOf(s1.calls[k1]) == OutcomeOf(s2.calls[k2])
    {
      if OneProgram(progs) {
        SoleOutcome(cfg, progs, now1, a, t, j, k1);
        SoleOutcome(cfg, progs, now2, b, t, j, k2);
      } else {
        ClosedOutcome(cfg, progs, now1, a, k1);
        ClosedOutcome(cfg, progs, now2, b, k2);
      }
    }
  }

  /** A generator that tells the two seeds of a call apart gives it two outcomes. */
  lemma TwoOutcomes(cfg: Config, seed: bv64, rng: Rng, progs: seq<seq<OpContext>>, t: nat, u: nat, j: nat)
    requires cfg.samplers == SamplersFor(seed, rng)
    requires t < |progs| && u < |progs| && t != u && progs[u] != [] && j < |progs[t]|
    requires Policy(cfg, progs[t][j].op).cap > 0
    requires rng.latency(ProfileOf(cfg, progs[t][j]), LatencySeed(seed, KeyOf(progs[t][j], j))) !=
             rng.latency(ProfileOf(cfg, progs[t][j]), LatencySeed(seed, KeyOf(progs[t][j], j + 1)))
    ensures !OutcomesFixed(cfg, progs)
  {
    var a, b := NumbersAreARace(cfg, seed, rng, progs, t, u, j);
    OutcomesDiffer(Run(cfg, Init(cfg, |progs|, 0.0), a), Starts(a),
                   Run(cfg, Init(cfg, |progs|, 0.0), b), Starts(b), t, j);
  }

  lemma OutcomesDiffer(s1: Engine, o1: seq<Task>, s2: Engine, o2: seq<Task>, t: nat, j: nat)
    requires IsNumber(o1, t, j, j) && IsNumber(o2, t, j, j + 1) && j < |s1.calls| && j + 1 < |s2.calls|
    requires s1.calls[j].fate.Served? && s2.calls[j + 1].fate.Served?
    requires s1.calls[j].fate.inj.latency != s2.calls[j + 1].fate.inj.latency
    ensures !SameByCall(s1, o1, s2, o2)
  {
    assert OutcomeOf(s1.calls[j]) != OutcomeOf(s2.calls[j + 1]);
  }

  lemma MarkingTells(profile: LatencyProfile, z1: bv64, z2: bv64)
    requires z1 != z2
    ensures MarkingRng(z1).latency(profile, z1) != MarkingRng(z1).latency(profile, z2)
  {
  }

  lemma NotFixedOtherwise(ops: map<FsOp, OpPolicy>, seed: bv64, progs: seq<seq<OpContext>>) returns (rng: Rng)
    requires !OneProgram(progs) && !AllClosed(ops, progs)
    ensures !OutcomesFixed(ConfigFor(ops, seed, rng), progs)
  {
    var t: nat, j: nat :| t < |progs| && j < |progs[t]| && !(progs[t][j].op in ops && ops[progs[t][j].op].cap == 0);
    var u: nat :| u < |progs| && u != t && progs[u] != [];
    var z1, z2 := LatencySeed(seed, KeyOf(progs[t][j], j)), LatencySeed(seed, KeyOf(progs[t][j], j + 1));
    rng := MarkingRng(z1);
    SameCallOtherSeed(seed, progs[t][j], j);
    MarkingTells(ProfileOf(ConfigFor(ops, seed, rng), progs[t][j]), z1, z2);
    TwoOutcomes(ConfigFor(ops, seed, rng), seed, rng, progs, t, u, j);
  }

  /** For every seed: the calls of a workload meet the same refusals and injections in every schedule,
      whatever the generator, if and only if at most one thread has anything to do, or every call is
      of an operation without slots. */
  lemma OutcomesFixedIff(ops: map<FsOp, OpPolicy>, seed: bv64, progs: seq<seq<OpContext>>)
    ensures (forall rng: Rng :: OutcomesFixed(ConfigFor(ops, seed, rng), progs)) <==>
            OneProgram(progs) || AllClosed(ops, progs)
  {
    if OneProgram(progs) || AllClosed(ops, progs) {
      forall rng: Rng ensures OutcomesFixed(ConfigFor(ops, seed, rng), progs) {
        FixedIfSoleOrClosed(ConfigFor(ops, seed, rng), progs);
      }
    } else {
      var rng := NotFixedOtherwise(ops, seed, progs);
    }
  }
}
