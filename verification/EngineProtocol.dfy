/**
 The engine's op lifecycle, run by any number of threads over the shared sequence
 counter, the per-op limiters and buckets, the event log and the metrics. A step is
 one access to shared state; sleeping and the reply body lie between steps.
 */
module EngineProtocol {
  import opened MachineWords
  import opened Wrappers
  import opened SampleKeys
  import C = Content
  import L = LimiterProtocol
  import B = TokenBucket
  import F = FaultSampler

  type OpContext = C.OpContext

  const OPS: nat := 11
  const EAGAIN: int := 11

  // ---------------------------------------------------------------- configuration

  datatype LatencyProfile = LatencyProfile(
    baseUs: nat, lognormalMedianUs: real, lognormalSigma: real,
    paretoWeight: real, paretoXmUs: real, paretoAlpha: real, maxUs: nat)

  datatype LargeTier = LargeTier(latency: LatencyProfile, bandwidth: Option<B.Profile>, faults: seq<F.FaultRule>)

  datatype SizeTier = SizeTier(threshold: nat, large: LargeTier)

  datatype OpPolicy = OpPolicy(
    cap: nat, queueCap: nat, latency: LatencyProfile, bandwidth: Option<B.Profile>,
    faults: seq<F.FaultRule>, sizeTier: Option<SizeTier>)

  /** The part of a call that the samplers see. */
  datatype CallKey = CallKey(op: FsOp, ino: U64, offset: U64, len: U32, no: nat)

  /** The two samplers for one master seed: functions of their profile and the key alone. */
  datatype Samplers = Samplers(
    fault: (seq<F.FaultRule>, CallKey) -> Option<int>,
    latency: (LatencyProfile, CallKey) -> nat)

  datatype Config = Config(ops: map<FsOp, OpPolicy>, samplers: Samplers)

  const DEFAULT_POLICY: OpPolicy :=
    OpPolicy(64, 0, LatencyProfile(0, 100.0, 0.5, 0.0, 1000.0, 1.5, 1_000_000), None, [], None)

  function Policy(cfg: Config, op: FsOp): OpPolicy {
    if op in cfg.ops then cfg.ops[op] else DEFAULT_POLICY
  }

  /** All operations, in the order of their discriminants. */
  const ALL: seq<FsOp> := [Lookup, GetAttr, Open, Read, Write, Flush, Release, Fsync, Readdir, Statfs, Access]

  function Idx(op: FsOp): (i: nat)
    ensures i < OPS && ALL[i] == op
  {
    Discriminant(op)
  }

  predicate IsData(op: FsOp) {
    op == Read || op == Write
  }

  datatype Tier = Base | Large

  /** The large tier needs a data op, a configured tier, and a request strictly above the threshold. */
  function SelectTier(policy: OpPolicy, op: FsOp, requestedLen: nat): Tier {
    if IsData(op) && policy.sizeTier.Some? && requestedLen > policy.sizeTier.value.threshold then Large else Base
  }

  function FaultsOf(policy: OpPolicy, tier: Tier): seq<F.FaultRule> {
    if tier == Large && policy.sizeTier.Some? then policy.sizeTier.value.large.faults else policy.faults
  }

  function LatencyOf(policy: OpPolicy, tier: Tier): LatencyProfile {
    if tier == Large && policy.sizeTier.Some? then policy.sizeTier.value.large.latency else policy.latency
  }

  /** The profile of a tier's bucket, if it has one. */
  function BandwidthOf(policy: OpPolicy, tier: Tier): Option<B.Profile> {
    match tier
    case Base => policy.bandwidth
    case Large => if policy.sizeTier.Some? then policy.sizeTier.value.large.bandwidth else None
  }

  datatype Injection = Injection(fault: Option<int>, latency: nat)

  function KeyOf(ctx: OpContext, no: nat): CallKey {
    CallKey(ctx.op, ctx.ino, ctx.offset, if ctx.len < TWO_32 then ctx.len else TWO_32 - 1, no)
  }

  /** What is injected into call `no`: a function of configuration, context and number. */
  function Inject(cfg: Config, ctx: OpContext, no: nat): Injection {
    var policy := Policy(cfg, ctx.op);
    var tier := SelectTier(policy, ctx.op, ctx.requestedLen);
    Injection(cfg.samplers.fault(FaultsOf(policy, tier), KeyOf(ctx, no)),
              cfg.samplers.latency(LatencyOf(policy, tier), KeyOf(ctx, no)))
  }

  // ---------------------------------------------------------------- states

  /** Where a thread stands in `run_op`. */
  datatype Pc =
    | Ready
    | Numbered(no: nat, ctx: OpContext)
    | Queued(no: nat, ctx: OpContext)
    | Refused(no: nat, ctx: OpContext)
    | RefusalTold(no: nat, ctx: OpContext)
    | Admitted(no: nat, ctx: OpContext)
    | Charged(no: nat, ctx: OpContext, inj: Injection, delay: real)
    | Finished(no: nat, ctx: OpContext, inj: Injection, delay: real, errno: Option<int>)
    | Told(no: nat, ctx: OpContext, errno: Option<int>)
    | Recorded(no: nat, ctx: OpContext)

  datatype Event = Event(
    no: nat, op: FsOp, ino: U64, offset: U64, len: nat, errno: Option<int>, latency: nat, delay: real)

  /** History of one call: the thread that owes its event or the event itself, and its fate. */
  datatype Place = At(t: nat) | Logged(k: nat)
  datatype Fate = Pending | TurnedAway | Served(inj: Injection, delay: real)
  datatype Call = Call(ctx: OpContext, place: Place, fate: Fate)

  datatype Engine = Engine(
    nextNo: nat,
    limiters: seq<L.State>,
    base: seq<Option<B.Bucket>>,
    large: seq<Option<B.Bucket>>,
    events: seq<Event>,
    countOk: seq<nat>,
    countErr: seq<nat>,
    pcs: seq<Pc>,
    calls: seq<Call>)

  predicate Shape(s: Engine) {
    && |s.limiters| == OPS && |s.base| == OPS && |s.large| == OPS && |s.countOk| == OPS && |s.countErr| == OPS
    && forall o | 0 <= o < OPS :: |s.limiters[o].threads| == |s.pcs|
  }

  function FreshBucket(p: Option<B.Profile>, now: real): Option<B.Bucket> {
    match p
    case None => None
    case Some(profile) => Some(B.New(profile, now))
  }

  function Init(cfg: Config, n: nat, now: real): Engine {
    Engine(
      0,
      seq(OPS, (o: nat) requires o < OPS => L.Init(Policy(cfg, ALL[o]).cap, Policy(cfg, ALL[o]).queueCap, n)),
      seq(OPS, (o: nat) requires o < OPS => FreshBucket(BandwidthOf(Policy(cfg, ALL[o]), Base), now)),
      seq(OPS, (o: nat) requires o < OPS => FreshBucket(BandwidthOf(Policy(cfg, ALL[o]), Large), now)),
      [], seq(OPS, _ => 0), seq(OPS, _ => 0), seq(n, _ => Ready), [])
  }

  // ---------------------------------------------------------------- steps

  /**
   - Start: take a sequence number.
   - Acquire, Spurious, Resume, Drop: the limiter's steps (`acquire` is untimed).
   - Charge: sample, and reserve bandwidth at time `now`.
   - Finish: sleep, then skip or run the reply body, whose own result is `body`.
   - Emit, Record: the event, then the metrics.
   */
  datatype Step =
    | Start(t: nat, ctx: OpContext)
    | Acquire(t: nat)
    | Spurious(t: nat)
    | Resume(t: nat)
    | Charge(t: nat, now: real)
    | Finish(t: nat, body: Option<int>)
    | Emit(t: nat)
    | Record(t: nat)
    | Drop(t: nat, woken: Option<nat>)

  predicate Limits(step: Step) {
    step.Acquire? || step.Spurious? || step.Resume? || step.Drop?
  }

  function LimiterStep(step: Step): L.Step
    requires Limits(step)
  {
    match step
    case Acquire(t) => L.Enter(t, false, false)
    case Spurious(t) => L.Spurious(t)
    case Resume(t) => L.Resume(t, false)
    case Drop(t, woken) => L.Release(t, woken)
  }

  predicate Enabled(s: Engine, step: Step) {
    && Shape(s) && step.t < |s.pcs|
    && var pc := s.pcs[step.t];
       && (Limits(step) ==> !pc.Ready? && L.Enabled(s.limiters[Idx(pc.ctx.op)], LimiterStep(step)))
       && (!pc.Ready? ==> pc.no < |s.calls|)
       && match step
          case Start(_, _) => pc.Ready?
          case Acquire(_) => pc.Numbered?
          case Spurious(_) => pc.Queued?
          case Resume(_) => pc.Queued?
          case Charge(_, _) => pc.Admitted?
          case Finish(_, _) => pc.Charged?
          case Emit(_) => pc.Refused? || pc.Finished?
          case Record(_) => pc.RefusalTold? || pc.Told?
          case Drop(_, _) => pc.Recorded?
  }

  function EventOf(pc: Pc): Event
    requires pc.Refused? || pc.Finished?
  {
    var c := pc.ctx;
    match pc
    case Refused(_, _) => Event(pc.no, c.op, c.ino, c.offset, c.len, Some(EAGAIN), 0, 0.0)
    case Finished(_, _, inj, delay, errno) => Event(pc.no, c.op, c.ino, c.offset, c.len, errno, inj.latency, delay)
  }

  /** The pc after a limiter step, read off the thread's new phase. */
  function PcAfter(pc: Pc, phase: L.Phase): Pc
    requires !pc.Ready?
  {
    match phase
    case Holding => Admitted(pc.no, pc.ctx)
    case Idle => Refused(pc.no, pc.ctx)
    case _ => Queued(pc.no, pc.ctx)
  }

  function Reserve(p: Option<B.Profile>, b: Option<B.Bucket>, ctx: OpContext, now: real): (Option<B.Bucket>, real) {
    if IsData(ctx.op) && p.Some? && b.Some? then
      var (b', wait) := B.Reserve(p.value, b.value, ctx.len, now);
      (Some(b'), wait)
    else (b, 0.0)
  }

  function ApplyLimiter(s: Engine, step: Step): Engine
    requires Enabled(s, step) && Limits(step)
  {
    var t, pc := step.t, s.pcs[step.t];
    var o := Idx(pc.ctx.op);
    var lim := L.Apply(s.limiters[o], LimiterStep(step));
    var pc' :=
      if step.Spurious? then pc else if step.Drop? then Ready else PcAfter(pc, lim.threads[t]);
    s.(limiters := s.limiters[o := lim],
       pcs := s.pcs[t := pc'],
       calls := if pc'.Refused? then s.calls[pc.no := s.calls[pc.no].(fate := TurnedAway)] else s.calls)
  }

  function Serve(s: Engine, t: nat, inj: Injection, delay: real): Engine
    requires t < |s.pcs| && s.pcs[t].Admitted? && s.pcs[t].no < |s.calls|
  {
    var pc := s.pcs[t];
    s.(calls := s.calls[pc.no := s.calls[pc.no].(fate := Served(inj, delay))],
       pcs := s.pcs[t := Charged(pc.no, pc.ctx, inj, delay)])
  }

  function ApplyCharge(cfg: Config, s: Engine, t: nat, now: real): Engine
    requires Enabled(s, Charge(t, now))
  {
    var pc := s.pcs[t];
    var o, policy, inj := Idx(pc.ctx.op), Policy(cfg, pc.ctx.op), Inject(cfg, pc.ctx, pc.no);
    match SelectTier(policy, pc.ctx.op, pc.ctx.requestedLen)
    case Base =>
      var (b, delay) := Reserve(BandwidthOf(policy, Base), s.base[o], pc.ctx, now);
      Serve(s, t, inj, delay).(base := s.base[o := b])
    case Large =>
      var (b, delay) := Reserve(BandwidthOf(policy, Large), s.large[o], pc.ctx, now);
      Serve(s, t, inj, delay).(large := s.large[o := b])
  }

  function ApplyEmit(s: Engine, t: nat): Engine
    requires Enabled(s, Emit(t))
  {
    var pc := s.pcs[t];
    s.(events := s.events + [EventOf(pc)],
       calls := s.calls[pc.no := s.calls[pc.no].(place := Logged(|s.events|))],
       pcs := s.pcs[t := if pc.Refused? then RefusalTold(pc.no, pc.ctx) else Told(pc.no, pc.ctx, pc.errno)])
  }

  function ApplyRecord(s: Engine, t: nat): Engine
    requires Enabled(s, Record(t))
  {
    var pc := s.pcs[t];
    var o := Idx(pc.ctx.op);
    match pc
    case Told(no, ctx, errno) =>
      var c := s.(pcs := s.pcs[t := Recorded(no, ctx)]);
      if errno.None? then c.(countOk := s.countOk[o := s.countOk[o] + 1])
      else c.(countErr := s.countErr[o := s.countErr[o] + 1])
    case RefusalTold(_, _) =>
      s.(countErr := s.countErr[o := s.countErr[o] + 1], pcs := s.pcs[t := Ready])
  }

  function Apply(cfg: Config, s: Engine, step: Step): Engine
    requires Enabled(s, step)
  {
    match step
    case Start(t, ctx) =>
      s.(nextNo := s.nextNo + 1,
         pcs := s.pcs[t := Numbered(s.nextNo, ctx)],
         calls := s.calls + [Call(ctx, At(t), Pending)])
    case Charge(t, now) => ApplyCharge(cfg, s, t, now)
    case Finish(t, body) =>
      var pc := s.pcs[t];
      var errno := if pc.inj.fault.Some? then pc.inj.fault else body;
      s.(pcs := s.pcs[t := Finished(pc.no, pc.ctx, pc.inj, pc.delay, errno)])
    case Emit(t) => ApplyEmit(s, t)
    case Record(t) => ApplyRecord(s, t)
    case _ => ApplyLimiter(s, step)
  }

  predicate CanRun(cfg: Config, s: Engine, steps: seq<Step>)
    decreases |steps|
  {
    steps != [] ==> Enabled(s, steps[0]) && CanRun(cfg, Apply(cfg, s, steps[0]), steps[1..])
  }

  function Run(cfg: Config, s: Engine, steps: seq<Step>): Engine
    requires CanRun(cfg, s, steps)
    decreases |steps|
  {
    if steps == [] then s else Run(cfg, Apply(cfg, s, steps[0]), steps[1..])
  }

  ghost predicate Reachable(cfg: Config, s: Engine) {
    exists n: nat, now: real, steps: seq<Step> ::
      CanRun(cfg, Init(cfg, n, now), steps) && Run(cfg, Init(cfg, n, now), steps) == s
  }
}
