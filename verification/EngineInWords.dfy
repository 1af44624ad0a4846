/**
 The laws of the engine in the words of its configuration: which policy, which tier of it and
 which of its fields every call meets, in every reachable state and over every run.
 */
module EngineInWords {
  import opened Sums
  import opened Wrappers
  import opened SampleKeys
  import opened EngineProtocol
  import opened EngineInvariant
  import opened EngineTheorems
  import opened EngineBandwidth
  import L = LimiterProtocol
  import B = TokenBucket

  /** The sampled fault and latency of a served call: a read or a write of more than the threshold
      samples the large tier's rules and profile, every other call the base ones, and the key is
      made of the call's own fields. */
  lemma ServedInWords(cfg: Config, s: Engine, no: nat)
    requires Reachable(cfg, s) && no < |s.calls| && s.calls[no].fate.Served?
    ensures
      var ctx, inj := s.calls[no].ctx, s.calls[no].fate.inj;
      var policy := if ctx.op in cfg.ops then cfg.ops[ctx.op] else DEFAULT_POLICY;
      var len := if ctx.len < 0x1_0000_0000 then ctx.len else 0xFFFF_FFFF;
      var key := CallKey(ctx.op, ctx.ino, ctx.offset, len, no);
      if (ctx.op == Read || ctx.op == Write) && policy.sizeTier.Some?
         && ctx.requestedLen > policy.sizeTier.value.threshold
      then
        && inj.fault == cfg.samplers.fault(policy.sizeTier.value.large.faults, key)
        && inj.latency == cfg.samplers.latency(policy.sizeTier.value.large.latency, key)
      else
        && inj.fault == cfg.samplers.fault(policy.faults, key)
        && inj.latency == cfg.samplers.latency(policy.latency, key)
  {
    ReachableInv(cfg, s);
  }

  /** A charge reserves the effective length in the large bucket for a read or a write of more than
      the threshold, in the base bucket for the other reads and writes, and nowhere for other
      operations. It leaves the other tier's bucket and all buckets of other operations alone. */
  lemma ChargeInWords(cfg: Config, s: Engine, t: nat, now: real)
    requires Enabled(s, Charge(t, now))
    ensures
      var s', ctx := Apply(cfg, s, Charge(t, now)), s.pcs[t].ctx;
      var o, policy := Idx(ctx.op), if ctx.op in cfg.ops then cfg.ops[ctx.op] else DEFAULT_POLICY;
      && Shape(s') && s'.pcs[t].Charged?
      && (forall p | 0 <= p < OPS && p != o :: s'.base[p] == s.base[p] && s'.large[p] == s.large[p])
      && if ctx.op != Read && ctx.op != Write then
           s'.base[o] == s.base[o] && s'.large[o] == s.large[o] && s'.pcs[t].delay == 0.0
         else if policy.sizeTier.Some? && ctx.requestedLen > policy.sizeTier.value.threshold then
           && s'.base[o] == s.base[o]
           && (policy.sizeTier.value.large.bandwidth.Some? && s.large[o].Some? ==>
                 var r := B.Reserve(policy.sizeTier.value.large.bandwidth.value, s.large[o].value, ctx.len, now);
                 s'.large[o] == Some(r.0) && s'.pcs[t].delay == r.1)
           && (policy.sizeTier.value.large.bandwidth.None? ==>
                 s'.large[o] == s.large[o] && s'.pcs[t].delay == 0.0)
         else
           && s'.large[o] == s.large[o]
           && (policy.bandwidth.Some? && s.base[o].Some? ==>
                 var r := B.Reserve(policy.bandwidth.value, s.base[o].value, ctx.len, now);
                 s'.base[o] == Some(r.0) && s'.pcs[t].delay == r.1)
           && (policy.bandwidth.None? ==> s'.base[o] == s.base[o] && s'.pcs[t].delay == 0.0)
  {
  }

  /** Every operation has the limiter that its policy, given or default, asks for. */
  lemma LimitersInWords(cfg: Config, s: Engine, op: FsOp)
    requires Reachable(cfg, s)
    ensures Shape(s)
    ensures s.limiters[Idx(op)].cap == if op in cfg.ops then cfg.ops[op].cap else 64
    ensures s.limiters[Idx(op)].queueCap == if op in cfg.ops then cfg.ops[op].queueCap else 0
  {
    ReachableInv(cfg, s);
  }

  lemma SameOperation(a: FsOp, b: FsOp)
    ensures Idx(a) == Idx(b) <==> a == b
  {
    assert ALL[Idx(a)] == a && ALL[Idx(b)] == b;
  }

  /** The bytes of a served read or write of operation `op`, if it exceeds the threshold. */
  function LongBytes(op: FsOp, tier: Option<SizeTier>): Call -> nat {
    (c: Call) =>
      if c.fate.Served? && c.ctx.op == op && (op == Read || op == Write)
         && tier.Some? && c.ctx.requestedLen > tier.value.threshold
      then c.ctx.len else 0
  }

  /** The bytes of a served read or write of operation `op`, if it does not, or there is no threshold. */
  function ShortBytes(op: FsOp, tier: Option<SizeTier>): Call -> nat {
    (c: Call) =>
      if c.fate.Served? && c.ctx.op == op && (op == Read || op == Write)
         && (tier.None? || c.ctx.requestedLen <= tier.value.threshold)
      then c.ctx.len else 0
  }

  lemma ShortAreBase(cfg: Config, op: FsOp, calls: seq<Call>)
    requires op in cfg.ops
    ensures Sum(ChargeOn(cfg, Idx(op), Base), calls) == Sum(ShortBytes(op, cfg.ops[op].sizeTier), calls)
  {
    var w := ShortBytes(op, cfg.ops[op].sizeTier);
    forall i | 0 <= i < |calls| ensures ChargeOn(cfg, Idx(op), Base)(calls[i]) == w(calls[i]) {
      SameOperation(calls[i].ctx.op, op);
    }
    SumPointwise(ChargeOn(cfg, Idx(op), Base), calls, w, calls);
  }

  lemma LongAreLarge(cfg: Config, op: FsOp, calls: seq<Call>)
    requires op in cfg.ops
    ensures Sum(ChargeOn(cfg, Idx(op), Large), calls) == Sum(LongBytes(op, cfg.ops[op].sizeTier), calls)
  {
    var w := LongBytes(op, cfg.ops[op].sizeTier);
    forall i | 0 <= i < |calls| ensures ChargeOn(cfg, Idx(op), Large)(calls[i]) == w(calls[i]) {
      SameOperation(calls[i].ctx.op, op);
    }
    SumPointwise(ChargeOn(cfg, Idx(op), Large), calls, w, calls);
  }

  /** The base bucket exists exactly if it is configured, and its total is the number of bytes of the
      served reads or writes that do not exceed the threshold, as far as 64 bits reach. */
  lemma BaseTotalInWords(cfg: Config, s: Engine, op: FsOp)
    requires Reachable(cfg, s) && op in cfg.ops
    ensures |s.base| == OPS && (s.base[Idx(op)].Some? <==> cfg.ops[op].bandwidth.Some?)
    ensures cfg.ops[op].bandwidth.Some? ==>
      var bytes := Sum(ShortBytes(op, cfg.ops[op].sizeTier), s.calls);
      s.base[Idx(op)].value.totalBytes == if bytes < 0x1_0000_0000_0000_0000 then bytes else 0xFFFF_FFFF_FFFF_FFFF
  {
    ReachableInv(cfg, s);
    assert ChargesOkFor(cfg, s, Idx(op), Base);
    ShortAreBase(cfg, op, s.calls);
  }

  /** The same of the large bucket and the reads or writes that exceed the threshold. */
  lemma LargeTotalInWords(cfg: Config, s: Engine, op: FsOp)
    requires Reachable(cfg, s) && op in cfg.ops
    ensures
      var tier := cfg.ops[op].sizeTier;
      |s.large| == OPS && (s.large[Idx(op)].Some? <==> tier.Some? && tier.value.large.bandwidth.Some?)
    ensures s.large[Idx(op)].Some? ==>
      var bytes := Sum(LongBytes(op, cfg.ops[op].sizeTier), s.calls);
      s.large[Idx(op)].value.totalBytes == if bytes < 0x1_0000_0000_0000_0000 then bytes else 0xFFFF_FFFF_FFFF_FFFF
  {
    ReachableInv(cfg, s);
    assert ChargesOkFor(cfg, s, Idx(op), Large);
    LongAreLarge(cfg, op, s.calls);
  }

  /** A served call that reserves something is in the ledger of its bucket, with the wait of its turn. */
  lemma TurnInLedger(cfg: Config, n: nat, start: real, steps: seq<Step>, no: nat) returns (i: nat)
    requires CanRun(cfg, Init(cfg, n, start), steps) && no < |Run(cfg, Init(cfg, n, start), steps).calls|
    requires
      var c := Run(cfg, Init(cfg, n, start), steps).calls[no];
      c.fate.Served? && !Free(cfg, c.ctx)
    ensures
      var c := Run(cfg, Init(cfg, n, start), steps).calls[no];
      var tier := TierOf(cfg, c.ctx);
      var ledger := Entries(cfg, Init(cfg, n, start), steps, Idx(c.ctx.op), tier);
      && i < |ledger| && ledger[i].no == no && ledger[i].bytes == c.ctx.len
      && c.fate.delay == WaitAt(BandwidthOf(Policy(cfg, c.ctx.op), tier).value, start, ledger, i)
  {
    var s := Run(cfg, Init(cfg, n, start), steps);
    var ctx, tier := s.calls[no].ctx, TierOf(cfg, s.calls[no].ctx);
    var p := BandwidthOf(Policy(cfg, ctx.op), tier).value;
    var ledger := Entries(cfg, Init(cfg, n, start), steps, Idx(ctx.op), tier);
    BucketsReplayCharges(cfg, n, start, steps, ctx.op, tier);
    assert Listed(ledger, no);
    i :| i < |ledger| && ledger[i].no == no;
    assert EntryOk(cfg, s, Idx(ctx.op), tier, ledger[i], Waits(p, start, ledger)[i]);
  }

  /** The bandwidth delay of a served call over any run: none if it is no read or write, if it is
      empty, or if the tier of its requested length has no bandwidth profile. Otherwise it is in the
      ledger of that tier's bucket, and its delay is the wait that the profile gives to its turn. */
  lemma DelayInWords(cfg: Config, n: nat, start: real, steps: seq<Step>, no: nat) returns (i: nat)
    requires CanRun(cfg, Init(cfg, n, start), steps) && no < |Run(cfg, Init(cfg, n, start), steps).calls|
    requires Run(cfg, Init(cfg, n, start), steps).calls[no].fate.Served?
    ensures
      var c := Run(cfg, Init(cfg, n, start), steps).calls[no];
      var policy := if c.ctx.op in cfg.ops then cfg.ops[c.ctx.op] else DEFAULT_POLICY;
      var long := policy.sizeTier.Some? && c.ctx.requestedLen > policy.sizeTier.value.threshold;
      var profile := if long then policy.sizeTier.value.large.bandwidth else policy.bandwidth;
      if (c.ctx.op != Read && c.ctx.op != Write) || c.ctx.len == 0 || profile.None? then c.fate.delay == 0.0
      else
        var ledger := Entries(cfg, Init(cfg, n, start), steps, Idx(c.ctx.op), if long then Large else Base);
        && i < |ledger| && ledger[i].no == no && ledger[i].bytes == c.ctx.len
        && c.fate.delay == WaitAt(profile.value, start, ledger, i)
  {
    i := 0;
    var s := Run(cfg, Init(cfg, n, start), steps);
    var ctx := s.calls[no].ctx;
    InitInv(cfg, n, start);
    InitShape(cfg, n, start);
    RunKeepsFree(cfg, Init(cfg, n, start), steps);
    if !Free(cfg, ctx) {
      i := TurnInLedger(cfg, n, start, steps, no);
    }
  }

  /** An operation that the configuration does not mention has 64 slots and no queue, samples no
      rules and the default profile, and is never delayed by bandwidth. */
  lemma UnconfiguredOp(cfg: Config, n: nat, start: real, steps: seq<Step>, op: FsOp, no: nat)
    requires CanRun(cfg, Init(cfg, n, start), steps) && op !in cfg.ops
    ensures
      var s := Run(cfg, Init(cfg, n, start), steps);
      && Shape(s) && s.limiters[Idx(op)].cap == 64 && s.limiters[Idx(op)].queueCap == 0
      && s.base[Idx(op)] == None && s.large[Idx(op)] == None
      && (no < |s.calls| && s.calls[no].ctx.op == op && s.calls[no].fate.Served? ==>
            var ctx, fate := s.calls[no].ctx, s.calls[no].fate;
            var len := if ctx.len < 0x1_0000_0000 then ctx.len else 0xFFFF_FFFF;
            var key := CallKey(op, ctx.ino, ctx.offset, len, no);
            && fate.inj.fault == cfg.samplers.fault([], key)
            && fate.inj.latency ==
               cfg.samplers.latency(LatencyProfile(0, 100.0, 0.5, 0.0, 1000.0, 1.5, 1_000_000), key)
            && fate.delay == 0.0)
  {
    var s := Run(cfg, Init(cfg, n, start), steps);
    InitInv(cfg, n, start);
    InitShape(cfg, n, start);
    RunKeepsInv(cfg, Init(cfg, n, start), steps);
    RunKeepsFree(cfg, Init(cfg, n, start), steps);
    assert CapsOk(cfg, s) && ChargesOkFor(cfg, s, Idx(op), Base) && ChargesOkFor(cfg, s, Idx(op), Large);
    if no < |s.calls| && s.calls[no].ctx.op == op {
      assert Free(cfg, s.calls[no].ctx);
    }
  }

  /** Every event tells the fields of its own call. That of a refused call tells EAGAIN and no delay;
      that of a served call tells the sampled latency, the bandwidth delay and any injected errno. */
  lemma EventInWords(cfg: Config, s: Engine, k: nat)
    requires Reachable(cfg, s) && k < |s.events|
    ensures
      var e := s.events[k];
      && e.no < |s.calls|
      && var c := s.calls[e.no];
         && e.op == c.ctx.op && e.ino == c.ctx.ino && e.offset == c.ctx.offset && e.len == c.ctx.len
         && (c.fate.TurnedAway? || c.fate.Served?)
         && (c.fate.TurnedAway? ==> e.errno == Some(11) && e.latency == 0 && e.delay == 0.0)
         && (c.fate.Served? ==> e.latency == c.fate.inj.latency && e.delay == c.fate.delay)
         && (c.fate.Served? && c.fate.inj.fault.Some? ==> e.errno == c.fate.inj.fault)
  {
    ReachableInv(cfg, s);
    assert Tells(s.events[k], s.calls[s.events[k].no]);
  }

  function Successes(op: FsOp): Event -> nat {
    (e: Event) => if e.op == op && e.errno == None then 1 else 0
  }

  function Errors(op: FsOp): Event -> nat {
    (e: Event) => if e.op == op && e.errno != None then 1 else 0
  }

  /** Once the engine is quiet, the metrics count the events without and with an errno. */
  lemma MetricsInWords(cfg: Config, s: Engine, op: FsOp)
    requires Reachable(cfg, s) && forall t | 0 <= t < |s.pcs| :: s.pcs[t].Ready?
    ensures |s.countOk| == OPS && s.countOk[Idx(op)] == Sum(Successes(op), s.events)
    ensures |s.countErr| == OPS && s.countErr[Idx(op)] == Sum(Errors(op), s.events)
  {
    ReachableInv(cfg, s);
    QuietState(cfg, s);
    CountedInWords(op, s.events);
  }

  lemma CountedInWords(op: FsOp, events: seq<Event>)
    ensures Sum(OkEventOf(Idx(op)), events) == Sum(Successes(op), events)
    ensures Sum(ErrEventOf(Idx(op)), events) == Sum(Errors(op), events)
  {
    forall i | 0 <= i < |events|
      ensures OkEventOf(Idx(op))(events[i]) == Successes(op)(events[i])
      ensures ErrEventOf(Idx(op))(events[i]) == Errors(op)(events[i])
    {
      SameOperation(events[i].op, op);
    }
    SumPointwise(OkEventOf(Idx(op)), events, Successes(op), events);
    SumPointwise(ErrEventOf(Idx(op)), events, Errors(op), events);
  }
}
