/** The engine's samplers made of key derivation and fault sampling, over any random generator. */
module SamplerBinding {
  import opened MachineWords
  import opened Wrappers
  import opened SampleKeys
  import opened EngineProtocol
  import opened EngineInvariant
  import opened FaultSampler
  import opened ReplyBodies

  /** A seeded generator: its stream of draws, and the latency that a profile makes of a seed. */
  datatype Rng = Rng(draws: bv64 -> Draws, latency: (LatencyProfile, bv64) -> nat)

  function KeyWords(seed: bv64, op: FsOp, ino: U64, offset: U64, len: U32, number: U64): SampleKey {
    SampleKey(seed, op, Word64(ino), Word64(offset), Word32(len), Word64(number))
  }

  /** The sequence number wraps around at 64 bits. */
  function ToSampleKey(seed: bv64, key: CallKey): SampleKey {
    KeyWords(seed, key.op, key.ino, key.offset, key.len, key.no % TWO_64)
  }

  function FaultSeed(seed: bv64, key: CallKey): bv64 {
    Mix(ToSampleKey(seed, key), FAULT_STREAM)
  }

  function LatencySeed(seed: bv64, key: CallKey): bv64 {
    Mix(ToSampleKey(seed, key), LATENCY_STREAM)
  }

  function SamplersFor(seed: bv64, rng: Rng): Samplers {
    Samplers(
      (rules: seq<FaultRule>, key: CallKey) => Sample(rules, key.op, rng.draws(FaultSeed(seed, key)), 0),
      (profile: LatencyProfile, key: CallKey) => rng.latency(profile, LatencySeed(seed, key)))
  }

  lemma {:induction false} NoneMatching(rules: seq<FaultRule>, op: FsOp)
    requires forall j | 0 <= j < |rules| :: rules[j].op != op
    ensures Matching(rules, op) == 0
    decreases |rules|
  {
    if rules != [] {
      NoneMatching(rules[1..], op);
    }
  }

  /** Rule `i` is the first for the operation. */
  predicate First(rules: seq<FaultRule>, op: FsOp, i: nat) {
    i < |rules| && rules[i].op == op && forall j | 0 <= j < i :: rules[j].op != op
  }

  /** A rule of rate 1 that no other rule for the operation precedes decides alone. */
  lemma CertainRule(rules: seq<FaultRule>, op: FsOp, u: Draws, i: nat)
    requires UnitDraws(u) && First(rules, op, i) && rules[i].rate >= 1.0
    ensures Sample(rules, op, u, 0) == Some(rules[i].errno)
  {
    var first := FirstFiringRuleDecides(rules, op, u, 0);
    NoneMatching(rules[..i], op);
    assert Fires(rules, op, u, 0, i);
    if first < i {
      assert false;
    }
  }

  /** Fault isolation over every run. A served call samples the large tier's rules if it is a read or
      a write of more than the threshold, and the base rules otherwise. If the first of them for its
      operation is certain, its event reports that errno; if none for its operation has a positive
      rate, its event reports what its body gave. Rules for other operations do not matter. */
  lemma FaultIsolation(cfg: Config, seed: bv64, rng: Rng, n: nat, now: real, steps: seq<Step>, bodies: Bodies,
                       k: nat, i: nat)
    requires cfg.samplers == SamplersFor(seed, rng) && forall z :: UnitDraws(rng.draws(z))
    requires CanRun(cfg, Init(cfg, n, now), steps) && Follows(cfg, Init(cfg, n, now), steps, bodies)
    requires k < |Run(cfg, Init(cfg, n, now), steps).events|
    ensures
      var s := Run(cfg, Init(cfg, n, now), steps);
      var e := s.events[k];
      && e.no < |s.calls| && e.op == s.calls[e.no].ctx.op
      && var ctx := s.calls[e.no].ctx;
         var policy := if ctx.op in cfg.ops then cfg.ops[ctx.op] else DEFAULT_POLICY;
         var rules :=
           if (ctx.op == Read || ctx.op == Write) && policy.sizeTier.Some?
              && ctx.requestedLen > policy.sizeTier.value.threshold
           then policy.sizeTier.value.large.faults else policy.faults;
         s.calls[e.no].fate.Served? ==>
           && (First(rules, ctx.op, i) && rules[i].rate >= 1.0 ==> e.errno == Some(rules[i].errno))
           && ((forall r | r in rules && r.op == ctx.op :: r.rate <= 0.0) ==> e.errno == bodies(ctx, e.no))
  {
    ServedEvent(cfg, n, now, steps, bodies, k);
    var s := Run(cfg, Init(cfg, n, now), steps);
    if s.calls[s.events[k].no].fate.Served? {
      IsolatedIn(cfg, seed, rng, s, bodies, k, i);
    }
  }

  lemma IsolatedIn(cfg: Config, seed: bv64, rng: Rng, s: Engine, bodies: Bodies, k: nat, i: nat)
    requires cfg.samplers == SamplersFor(seed, rng) && forall z :: UnitDraws(rng.draws(z))
    requires k < |s.events| && s.events[k].no < |s.calls| && s.calls[s.events[k].no].fate.Served?
    requires
      var e, ctx := s.events[k], s.calls[s.events[k].no].ctx;
      var fault := Inject(cfg, ctx, e.no).fault;
      e.errno == if fault.Some? then fault else bodies(ctx, e.no)
    ensures
      var e, ctx := s.events[k], s.calls[s.events[k].no].ctx;
      var policy := if ctx.op in cfg.ops then cfg.ops[ctx.op] else DEFAULT_POLICY;
      var rules :=
        if (ctx.op == Read || ctx.op == Write) && policy.sizeTier.Some?
           && ctx.requestedLen > policy.sizeTier.value.threshold
        then policy.sizeTier.value.large.faults else policy.faults;
      && (First(rules, ctx.op, i) && rules[i].rate >= 1.0 ==> e.errno == Some(rules[i].errno))
      && ((forall r | r in rules && r.op == ctx.op :: r.rate <= 0.0) ==> e.errno == bodies(ctx, e.no))
  {
    InjectedFault(cfg, seed, rng, s.calls[s.events[k].no].ctx, s.events[k].no, i);
  }

  lemma ServedEvent(cfg: Config, n: nat, now: real, steps: seq<Step>, bodies: Bodies, k: nat)
    requires CanRun(cfg, Init(cfg, n, now), steps) && Follows(cfg, Init(cfg, n, now), steps, bodies)
    requires k < |Run(cfg, Init(cfg, n, now), steps).events|
    ensures
      var s := Run(cfg, Init(cfg, n, now), steps);
      var e := s.events[k];
      && e.no < |s.calls| && e.op == s.calls[e.no].ctx.op
      && (s.calls[e.no].fate.Served? ==>
            var ctx := s.calls[e.no].ctx;
            var fault := Inject(cfg, ctx, e.no).fault;
            e.errno == if fault.Some? then fault else bodies(ctx, e.no))
  {
    var s := Run(cfg, Init(cfg, n, now), steps);
    EventsSayResults(cfg, n, now, steps, bodies);
    assert Tells(s.events[k], s.calls[s.events[k].no]);
  }

  /** The same of one call: what is injected into it. */
  lemma InjectedFault(cfg: Config, seed: bv64, rng: Rng, ctx: OpContext, no: nat, i: nat)
    requires cfg.samplers == SamplersFor(seed, rng) && forall z :: UnitDraws(rng.draws(z))
    ensures
      var policy := if ctx.op in cfg.ops then cfg.ops[ctx.op] else DEFAULT_POLICY;
      var rules :=
        if (ctx.op == Read || ctx.op == Write) && policy.sizeTier.Some?
           && ctx.requestedLen > policy.sizeTier.value.threshold
        then policy.sizeTier.value.large.faults else policy.faults;
      var fault := Inject(cfg, ctx, no).fault;
      && (First(rules, ctx.op, i) && rules[i].rate >= 1.0 ==> fault == Some(rules[i].errno))
      && ((forall r | r in rules && r.op == ctx.op :: r.rate <= 0.0) ==> fault == None)
  {
    var policy := Policy(cfg, ctx.op);
    var rules := FaultsOf(policy, SelectTier(policy, ctx.op, ctx.requestedLen));
    var u := rng.draws(FaultSeed(seed, KeyOf(ctx, no)));
    assert UnitDraws(u) && Inject(cfg, ctx, no).fault == Sample(rules, ctx.op, u, 0);
    CertainRates(rules, ctx.op, u);
    if First(rules, ctx.op, i) && rules[i].rate >= 1.0 {
      CertainRule(rules, ctx.op, u, i);
    }
  }

  // ---------------------------------------------------------------- the seeds of calls

  /** Every call draws its fault and its latency from different seeds. */
  lemma CallStreamsDiffer(seed: bv64, ctx: OpContext, no: nat)
    ensures FaultSeed(seed, KeyOf(ctx, no)) != LatencySeed(seed, KeyOf(ctx, no))
  {
    StreamsDiffer(ToSampleKey(seed, KeyOf(ctx, no)));
  }

  /** The keys differ in exactly one field, numbers being the same modulo 2^64. */
  predicate OneKeyFieldDiffers(k1: CallKey, k2: CallKey) {
    (if k1.op == k2.op then 0 else 1) + (if k1.ino == k2.ino then 0 else 1) +
    (if k1.offset == k2.offset then 0 else 1) + (if k1.len == k2.len then 0 else 1) +
    (if k1.no % TWO_64 == k2.no % TWO_64 then 0 else 1) == 1
  }

  lemma OneWordDiffers(k1: SampleKey, k2: SampleKey)
    requires k1.seed == k2.seed
    requires (if k1.op == k2.op then 0 else 1) + (if k1.ino == k2.ino then 0 else 1) +
             (if k1.offset == k2.offset then 0 else 1) + (if k1.len == k2.len then 0 else 1) +
             (if k1.seqNo == k2.seqNo then 0 else 1) == 1
    ensures OneFieldDiffers(k1, k2)
  {
  }

  lemma WordsOneFieldDiffers(seed: bv64, k1: CallKey, k2: CallKey)
    requires OneKeyFieldDiffers(k1, k2)
    ensures OneFieldDiffers(ToSampleKey(seed, k1), ToSampleKey(seed, k2))
  {
    if k1.ino != k2.ino {
      Words64Differ(k1.ino, k2.ino);
    } else if k1.offset != k2.offset {
      Words64Differ(k1.offset, k2.offset);
    } else if k1.len != k2.len {
      Words32Differ(k1.len, k2.len);
    } else if k1.op == k2.op {
      Words64Differ(k1.no % TWO_64, k2.no % TWO_64);
    }
    OneWordDiffers(ToSampleKey(seed, k1), ToSampleKey(seed, k2));
  }

  lemma OneFieldOtherFault(seed: bv64, k1: CallKey, k2: CallKey)
    requires OneKeyFieldDiffers(k1, k2)
    ensures FaultSeed(seed, k1) != FaultSeed(seed, k2)
  {
    WordsOneFieldDiffers(seed, k1, k2);
    SingleFieldChangesSeed(ToSampleKey(seed, k1), ToSampleKey(seed, k2), FAULT_STREAM);
  }

  lemma OneFieldOtherLatency(seed: bv64, k1: CallKey, k2: CallKey)
    requires OneKeyFieldDiffers(k1, k2)
    ensures LatencySeed(seed, k1) != LatencySeed(seed, k2)
  {
    WordsOneFieldDiffers(seed, k1, k2);
    SingleFieldChangesSeed(ToSampleKey(seed, k1), ToSampleKey(seed, k2), LATENCY_STREAM);
  }

  /** A call's seeds change with its operation, inode, offset, length below 2^32 - 1 and number modulo
      2^64, if just one of them changes. */
  lemma OneChangeOtherSeeds(seed: bv64, c1: OpContext, n1: nat, c2: OpContext, n2: nat)
    requires
      var l1 := if c1.len < 0x1_0000_0000 then c1.len else 0xFFFF_FFFF;
      var l2 := if c2.len < 0x1_0000_0000 then c2.len else 0xFFFF_FFFF;
      (if c1.op == c2.op then 0 else 1) + (if c1.ino == c2.ino then 0 else 1) +
      (if c1.offset == c2.offset then 0 else 1) + (if l1 == l2 then 0 else 1) +
      (if n1 % 0x1_0000_0000_0000_0000 == n2 % 0x1_0000_0000_0000_0000 then 0 else 1) == 1
    ensures FaultSeed(seed, KeyOf(c1, n1)) != FaultSeed(seed, KeyOf(c2, n2))
    ensures LatencySeed(seed, KeyOf(c1, n1)) != LatencySeed(seed, KeyOf(c2, n2))
  {
    OneFieldOtherFault(seed, KeyOf(c1, n1), KeyOf(c2, n2));
    OneFieldOtherLatency(seed, KeyOf(c1, n1), KeyOf(c2, n2));
  }

  lemma SameKeySameSeeds(seed: bv64, k1: CallKey, k2: CallKey)
    requires k1.(no := 0) == k2.(no := 0) && k1.no % TWO_64 == k2.no % TWO_64
    ensures FaultSeed(seed, k1) == FaultSeed(seed, k2) && LatencySeed(seed, k1) == LatencySeed(seed, k2)
  {
    assert ToSampleKey(seed, k1) == ToSampleKey(seed, k2);
  }

  /** Nothing else takes part: the requested length does not, and neither does what exceeds the bounds. */
  lemma SharedSeeds(seed: bv64, c1: OpContext, n1: nat, c2: OpContext, n2: nat)
    requires c1.op == c2.op && c1.ino == c2.ino && c1.offset == c2.offset
    requires c1.len == c2.len || (c1.len >= 0xFFFF_FFFF && c2.len >= 0xFFFF_FFFF)
    requires n1 % 0x1_0000_0000_0000_0000 == n2 % 0x1_0000_0000_0000_0000
    ensures FaultSeed(seed, KeyOf(c1, n1)) == FaultSeed(seed, KeyOf(c2, n2))
    ensures LatencySeed(seed, KeyOf(c1, n1)) == LatencySeed(seed, KeyOf(c2, n2))
  {
    SameKeySameSeeds(seed, KeyOf(c1, n1), KeyOf(c2, n2));
  }

  /** The same call under the next number draws from other seeds. */
  lemma SameCallOtherSeed(seed: bv64, ctx: OpContext, no: nat)
    ensures LatencySeed(seed, KeyOf(ctx, no)) != LatencySeed(seed, KeyOf(ctx, no + 1))
    ensures FaultSeed(seed, KeyOf(ctx, no)) != FaultSeed(seed, KeyOf(ctx, no + 1))
  {
    NextNumberDiffers(no);
    OneChangeOtherSeeds(seed, ctx, no, ctx, no + 1);
  }

  lemma NextNumberDiffers(no: nat)
    ensures no % 0x1_0000_0000_0000_0000 != (no + 1) % 0x1_0000_0000_0000_0000
  {
  }

  /** Which field goes where: call 7, an access to inode 100 at offset 65536 with 512 bytes. */
  lemma KnownCallSeeds(requested: nat)
    ensures FaultSeed(42, KeyOf(OpContext.OpContext(Access, 100, 65536, 512, requested), 7)) == 0xd738_b0f7_8a0c_9a79
    ensures LatencySeed(42, KeyOf(OpContext.OpContext(Access, 100, 65536, 512, requested), 7)) == 0xd731_5393_bd39_0731
  {
    SmallWords();
    KnownSeeds();
  }

  /** The latency profile that applies to a call. */
  function ProfileOf(cfg: Config, ctx: OpContext): LatencyProfile {
    LatencyOf(Policy(cfg, ctx.op), SelectTier(Policy(cfg, ctx.op), ctx.op, ctx.requestedLen))
  }

  lemma InjectedLatency(cfg: Config, seed: bv64, rng: Rng, ctx: OpContext, no: nat)
    requires cfg.samplers == SamplersFor(seed, rng)
    ensures Inject(cfg, ctx, no).latency == rng.latency(ProfileOf(cfg, ctx), LatencySeed(seed, KeyOf(ctx, no)))
  {
  }

  /** A generator that gives the seed `marked` a latency of its own. */
  function MarkingRng(marked: bv64): Rng {
    Rng(_ => _ => 0.5, (_, z) => if z == marked then 1 else 0)
  }
}
