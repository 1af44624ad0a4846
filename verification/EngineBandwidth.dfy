/**
 The engine's buckets over whole runs: each is the replay of the calls charged to it, so the
 theory of the token bucket holds for the delays that calls of any interleaving meet.
 */
module EngineBandwidth {
  import opened Wrappers
  import opened SampleKeys
  import opened EngineProtocol
  import opened EngineInvariant
  import B = TokenBucket

  /** One charge: the call, the time and the bytes. */
  datatype Entry = Entry(no: nat, at: real, bytes: nat)

  function TierOf(cfg: Config, ctx: OpContext): Tier {
    SelectTier(Policy(cfg, ctx.op), ctx.op, ctx.requestedLen)
  }

  /** Calls that, once admitted, cost the bucket of operation `o` and tier `tier` something. */
  predicate Costs(cfg: Config, ctx: OpContext, o: nat, tier: Tier) {
    IsData(ctx.op) && Idx(ctx.op) == o && TierOf(cfg, ctx) == tier && ctx.len > 0
  }

  function EntryOf(cfg: Config, s: Engine, step: Step, o: nat, tier: Tier): seq<Entry>
    requires Enabled(s, step)
  {
    if step.Charge? && Costs(cfg, s.pcs[step.t].ctx, o, tier)
    then [Entry(s.pcs[step.t].no, step.now, s.pcs[step.t].ctx.len)]
    else []
  }

  /** The charges of a run to one bucket, in the order in which they happen. */
  function Entries(cfg: Config, s: Engine, steps: seq<Step>, o: nat, tier: Tier): seq<Entry>
    requires CanRun(cfg, s, steps)
    decreases |steps|
  {
    if steps == [] then []
    else EntryOf(cfg, s, steps[0], o, tier) + Entries(cfg, Apply(cfg, s, steps[0]), steps[1..], o, tier)
  }

  function Requests(ledger: seq<Entry>): (log: seq<B.Request>)
    ensures |log| == |ledger|
  {
    seq(|ledger|, (i: nat) requires i < |ledger| => B.Request(ledger[i].at, ledger[i].bytes))
  }

  /** The wait that the bucket's history gives to entry `i`. */
  function WaitAt(p: B.Profile, start: real, ledger: seq<Entry>, i: nat): real
    requires i < |ledger|
  {
    B.Reserve(p, B.Replay(p, start, Requests(ledger)[..i]), ledger[i].bytes, ledger[i].at).1
  }

  function Waits(p: B.Profile, start: real, ledger: seq<Entry>): (waits: seq<real>)
    ensures |waits| == |ledger|
  {
    seq(|ledger|, (i: nat) requires i < |ledger| => WaitAt(p, start, ledger, i))
  }

  predicate Listed(ledger: seq<Entry>, no: nat) {
    exists i :: 0 <= i < |ledger| && ledger[i].no == no
  }

  /** Every served call that costs the bucket something is in the ledger. */
  ghost predicate AllListed(cfg: Config, s: Engine, o: nat, tier: Tier, ledger: seq<Entry>) {
    forall no: nat | no < |s.calls| && s.calls[no].fate.Served? && Costs(cfg, s.calls[no].ctx, o, tier) ::
      Listed(ledger, no)
  }

  /** The bucket is the replay of the ledger, the ledger has exactly the served calls that cost it
      something, each once, and each met the wait that its turn gives. */
  ghost predicate LedgerOk(cfg: Config, s: Engine, o: nat, tier: Tier, p: B.Profile, start: real, ledger: seq<Entry>)
    requires Shape(s) && o < OPS
  {
    && BucketOf(s, o, tier) == Some(B.Replay(p, start, Requests(ledger)))
    && EntriesOk(cfg, s, o, tier, ledger, Waits(p, start, ledger))
    && AllListed(cfg, s, o, tier, ledger)
  }

  ghost predicate EntriesOk(cfg: Config, s: Engine, o: nat, tier: Tier, ledger: seq<Entry>, waits: seq<real>) {
    && |waits| == |ledger|
    && (forall i: nat | i < |ledger| :: EntryOk(cfg, s, o, tier, ledger[i], waits[i]))
    && (forall i, j | 0 <= i < j < |ledger| :: ledger[i].no != ledger[j].no)
  }

  predicate EntryOk(cfg: Config, s: Engine, o: nat, tier: Tier, e: Entry, wait: real) {
    && e.no < |s.calls| && s.calls[e.no].ctx.len == e.bytes && Costs(cfg, s.calls[e.no].ctx, o, tier)
    && s.calls[e.no].fate.Served? && s.calls[e.no].fate.delay == wait
  }

  // ---------------------------------------------------------------- steps

  /** What a charge does to the bucket that it reaches, and to the others. */
  lemma ChargeOnBucket(cfg: Config, s: Engine, t: nat, now: real, o: nat, tier: Tier, p: B.Profile)
    requires Enabled(s, Charge(t, now)) && o < OPS && BandwidthOf(Policy(cfg, ALL[o]), tier) == Some(p)
    requires BucketOf(s, o, tier).Some?
    ensures
      var s', ctx, b := ApplyCharge(cfg, s, t, now), s.pcs[t].ctx, BucketOf(s, o, tier).value;
      && Shape(s') && s'.pcs[t].Charged?
      && (Costs(cfg, ctx, o, tier) ==>
            (BucketOf(s', o, tier), s'.pcs[t].delay) ==
            (Some(B.Reserve(p, b, ctx.len, now).0), B.Reserve(p, b, ctx.len, now).1))
      && (!Costs(cfg, ctx, o, tier) ==> BucketOf(s', o, tier) == BucketOf(s, o, tier))
  {
    assert ALL[Idx(s.pcs[t].ctx.op)] == s.pcs[t].ctx.op;
  }

  lemma LedgerGrows(p: B.Profile, start: real, ledger: seq<Entry>, e: Entry)
    ensures
      var r := B.Reserve(p, B.Replay(p, start, Requests(ledger)), e.bytes, e.at);
      && B.Replay(p, start, Requests(ledger + [e])) == r.0
      && Waits(p, start, ledger + [e]) == Waits(p, start, ledger) + [r.1]
  {
    var log := Requests(ledger + [e]);
    assert log[..|ledger|] == Requests(ledger);
    forall i: nat | i < |ledger| ensures log[..i] == Requests(ledger)[..i] {
    }
  }

  /** Later steps do not touch what is in the ledger. */
  lemma EntriesStay(cfg: Config, s: Engine, s': Engine, o: nat, tier: Tier, ledger: seq<Entry>, waits: seq<real>)
    requires Settled(s, s') && EntriesOk(cfg, s, o, tier, ledger, waits)
    ensures EntriesOk(cfg, s', o, tier, ledger, waits)
  {
    forall i: nat | i < |ledger| ensures EntryOk(cfg, s', o, tier, ledger[i], waits[i]) {
      assert EntryOk(cfg, s, o, tier, ledger[i], waits[i]);
    }
  }

  lemma EntriesGrow(cfg: Config, s: Engine, o: nat, tier: Tier, ledger: seq<Entry>, waits: seq<real>,
                    e: Entry, wait: real)
    requires EntriesOk(cfg, s, o, tier, ledger, waits) && EntryOk(cfg, s, o, tier, e, wait)
    requires forall i | 0 <= i < |ledger| :: ledger[i].no != e.no
    ensures EntriesOk(cfg, s, o, tier, ledger + [e], waits + [wait])
  {
  }

  /** A charge that costs the bucket something adds its call to the ledger. */
  lemma ChargeKeepsEntries(cfg: Config, s: Engine, t: nat, now: real, o: nat, tier: Tier,
                           ledger: seq<Entry>, waits: seq<real>)
    requires CallsOk(s) && FatesOk(cfg, s) && Enabled(s, Charge(t, now))
    requires EntriesOk(cfg, s, o, tier, ledger, waits) && AllListed(cfg, s, o, tier, ledger)
    ensures
      var s' := ApplyCharge(cfg, s, t, now);
      if Costs(cfg, s.pcs[t].ctx, o, tier) then
        var grown := ledger + [Entry(s.pcs[t].no, now, s.pcs[t].ctx.len)];
        && s'.pcs[t].Charged? && EntriesOk(cfg, s', o, tier, grown, waits + [s'.pcs[t].delay])
        && AllListed(cfg, s', o, tier, grown)
      else
        EntriesOk(cfg, s', o, tier, ledger, waits) && AllListed(cfg, s', o, tier, ledger)
  {
    var s', pc := ApplyCharge(cfg, s, t, now), s.pcs[t];
    StepSettles(cfg, s, Charge(t, now));
    ChargeServes(cfg, s, t, now);
    EntriesStay(cfg, s, s', o, tier, ledger, waits);
    if Costs(cfg, pc.ctx, o, tier) {
      var e := Entry(pc.no, now, pc.ctx.len);
      assert FateMatches(pc, s.calls[pc.no].fate);
      EntriesGrow(cfg, s', o, tier, ledger, waits, e, s'.pcs[t].delay);
      NewcomerListed(cfg, s, s', o, tier, ledger, e);
    }
  }

  lemma ChargeServes(cfg: Config, s: Engine, t: nat, now: real)
    requires Enabled(s, Charge(t, now))
    ensures
      var s', no := ApplyCharge(cfg, s, t, now), s.pcs[t].no;
      && s'.pcs[t].Charged?
      && s'.calls == s.calls[no := s.calls[no].(fate := Served(s'.pcs[t].inj, s'.pcs[t].delay))]
  {
  }

  lemma ChargeKeepsLedger(cfg: Config, s: Engine, t: nat, now: real, o: nat, tier: Tier,
                          p: B.Profile, start: real, ledger: seq<Entry>)
    requires CallsOk(s) && FatesOk(cfg, s) && Enabled(s, Charge(t, now)) && o < OPS
    requires BandwidthOf(Policy(cfg, ALL[o]), tier) == Some(p) && LedgerOk(cfg, s, o, tier, p, start, ledger)
    ensures Shape(ApplyCharge(cfg, s, t, now))
    ensures LedgerOk(cfg, ApplyCharge(cfg, s, t, now), o, tier, p, start,
                     ledger + EntryOf(cfg, s, Charge(t, now), o, tier))
  {
    ChargeOnBucket(cfg, s, t, now, o, tier, p);
    ChargeKeepsEntries(cfg, s, t, now, o, tier, ledger, Waits(p, start, ledger));
    LedgerGrows(p, start, ledger, Entry(s.pcs[t].no, now, s.pcs[t].ctx.len));
    assert ledger + [] == ledger;
  }

  lemma NewcomerListed(cfg: Config, s: Engine, s': Engine, o: nat, tier: Tier, ledger: seq<Entry>, e: Entry)
    requires |s'.calls| == |s.calls| && e.no < |s.calls|
    requires forall i | 0 <= i < |s.calls| && i != e.no :: s'.calls[i] == s.calls[i]
    requires AllListed(cfg, s, o, tier, ledger)
    ensures AllListed(cfg, s', o, tier, ledger + [e])
  {
    forall no: nat | no < |s'.calls| && s'.calls[no].fate.Served? && Costs(cfg, s'.calls[no].ctx, o, tier)
      ensures Listed(ledger + [e], no)
    {
      if no == e.no {
        assert (ledger + [e])[|ledger|].no == no;
      } else {
        assert Listed(ledger, no);
        var i :| 0 <= i < |ledger| && ledger[i].no == no;
        assert (ledger + [e])[i].no == no;
      }
    }
  }

  lemma OtherStepServesNobody(cfg: Config, s: Engine, step: Step)
    requires Enabled(s, step) && !step.Charge?
    ensures
      var s' := Apply(cfg, s, step);
      forall i | 0 <= i < |s'.calls| && s'.calls[i].fate.Served? ::
        i < |s.calls| && s.calls[i].fate.Served? && s'.calls[i].ctx == s.calls[i].ctx
  {
  }

  lemma StepKeepsLedger(cfg: Config, s: Engine, step: Step, o: nat, tier: Tier,
                        p: B.Profile, start: real, ledger: seq<Entry>)
    requires CallsOk(s) && FatesOk(cfg, s) && Enabled(s, step) && o < OPS && Shape(Apply(cfg, s, step))
    requires BandwidthOf(Policy(cfg, ALL[o]), tier) == Some(p) && LedgerOk(cfg, s, o, tier, p, start, ledger)
    ensures LedgerOk(cfg, Apply(cfg, s, step), o, tier, p, start, ledger + EntryOf(cfg, s, step, o, tier))
  {
    if step.Charge? {
      ChargeKeepsLedger(cfg, s, step.t, step.now, o, tier, p, start, ledger);
    } else {
      OtherStepTouchesNoBucket(cfg, s, step);
      OtherStepServesNobody(cfg, s, step);
      StepSettles(cfg, s, step);
      EntriesStay(cfg, s, Apply(cfg, s, step), o, tier, ledger, Waits(p, start, ledger));
      assert ledger + [] == ledger;
    }
  }

  ghost predicate OnTrack(cfg: Config, s: Engine, o: nat, tier: Tier, p: B.Profile, start: real, ledger: seq<Entry>) {
    && Inv(cfg, s) && o < OPS && BandwidthOf(Policy(cfg, ALL[o]), tier) == Some(p)
    && LedgerOk(cfg, s, o, tier, p, start, ledger)
  }

  lemma StepStaysOnTrack(cfg: Config, s: Engine, step: Step, o: nat, tier: Tier,
                         p: B.Profile, start: real, ledger: seq<Entry>)
    requires OnTrack(cfg, s, o, tier, p, start, ledger) && Enabled(s, step)
    ensures OnTrack(cfg, Apply(cfg, s, step), o, tier, p, start, ledger + EntryOf(cfg, s, step, o, tier))
  {
    StepKeepsInv(cfg, s, step);
    StepKeepsLedger(cfg, s, step, o, tier, p, start, ledger);
  }

  ghost predicate StepsKeep(cfg: Config, o: nat, tier: Tier, keeps: (Engine, seq<Entry>) -> bool) {
    forall s: Engine, step: Step, l: seq<Entry> | Enabled(s, step) && keeps(s, l) ::
      keeps(Apply(cfg, s, step), l + EntryOf(cfg, s, step, o, tier))
  }

  /** What every step keeps, whatever it says about a state and the charges so far, runs keep. */
  lemma {:induction false} RunKeeps(cfg: Config, s: Engine, steps: seq<Step>, o: nat, tier: Tier,
                                    ledger: seq<Entry>, keeps: (Engine, seq<Entry>) -> bool)
    requires CanRun(cfg, s, steps) && keeps(s, ledger)
    requires StepsKeep(cfg, o, tier, keeps)
    ensures keeps(Run(cfg, s, steps), ledger + Entries(cfg, s, steps, o, tier))
    decreases |steps|
  {
    if steps == [] {
      assert ledger + [] == ledger;
    } else {
      var next, entry := Apply(cfg, s, steps[0]), EntryOf(cfg, s, steps[0], o, tier);
      var rest := Entries(cfg, next, steps[1..], o, tier);
      assert keeps(next, ledger + entry);
      RunKeeps(cfg, next, steps[1..], o, tier, ledger + entry, keeps);
      assert ledger + entry + rest == ledger + (entry + rest);
    }
  }

  // ---------------------------------------------------------------- theorems

  /** Over any run, a configured bucket is the replay of the charges to it; they are, each once, the
      served calls with bytes that are routed there; and each call's delay is the wait of its turn. */
  lemma BucketsReplayCharges(cfg: Config, n: nat, start: real, steps: seq<Step>, op: FsOp, tier: Tier)
    requires CanRun(cfg, Init(cfg, n, start), steps) && BandwidthOf(Policy(cfg, op), tier).Some?
    ensures
      var s, p := Run(cfg, Init(cfg, n, start), steps), BandwidthOf(Policy(cfg, op), tier).value;
      OnTrack(cfg, s, Idx(op), tier, p, start, Entries(cfg, Init(cfg, n, start), steps, Idx(op), tier))
  {
    var p, o, init := BandwidthOf(Policy(cfg, op), tier).value, Idx(op), Init(cfg, n, start);
    var all := Entries(cfg, init, steps, o, tier);
    var keeps := (s: Engine, l: seq<Entry>) => OnTrack(cfg, s, o, tier, p, start, l);
    StartsOnTrack(cfg, n, start, op, tier);
    forall m: Engine, step: Step, l: seq<Entry> | Enabled(m, step) && keeps(m, l)
      ensures keeps(Apply(cfg, m, step), l + EntryOf(cfg, m, step, o, tier))
    {
      StepStaysOnTrack(cfg, m, step, o, tier, p, start, l);
    }
    RunKeeps(cfg, init, steps, o, tier, [], keeps);
    assert [] + all == all;
    assert keeps(Run(cfg, init, steps), all);
  }

  lemma StartsOnTrack(cfg: Config, n: nat, start: real, op: FsOp, tier: Tier)
    requires BandwidthOf(Policy(cfg, op), tier).Some?
    ensures OnTrack(cfg, Init(cfg, n, start), Idx(op), tier, BandwidthOf(Policy(cfg, op), tier).value, start, [])
  {
    var p := BandwidthOf(Policy(cfg, op), tier).value;
    InitInv(cfg, n, start);
    InitShape(cfg, n, start);
    assert BucketOf(Init(cfg, n, start), Idx(op), tier) == Some(B.New(p, start));
    assert Requests([]) == [];
  }

  /** The clock does not go back between charges. */
  predicate InOrder(start: real, ledger: seq<Entry>) {
    && (forall i | 0 <= i < |ledger| :: start <= ledger[i].at)
    && (forall i, j | 0 <= i < j < |ledger| :: ledger[i].at <= ledger[j].at)
  }

  lemma {:induction false} LedgerIsProper(start: real, ledger: seq<Entry>)
    requires InOrder(start, ledger) && forall i | 0 <= i < |ledger| :: ledger[i].bytes > 0
    ensures B.Proper(start, Requests(ledger))
    decreases |ledger|
  {
    if ledger != [] {
      var init := ledger[..|ledger| - 1];
      LedgerIsProper(start, init);
      assert Requests(ledger)[..|init|] == Requests(init);
    }
  }

  lemma WaitIsCompletion(p: B.Profile, start: real, ledger: seq<Entry>, i: nat)
    requires p.rate > 0.0 && i < |ledger| && ledger[i].bytes > 0
    ensures B.Completion(p, start, Requests(ledger), i) == ledger[i].at + WaitAt(p, start, ledger, i)
  {
    assert Requests(ledger)[..i + 1][..i] == Requests(ledger)[..i];
  }

  predicate IsServed(s: Engine, e: Entry) {
    e.no < |s.calls| && s.calls[e.no].fate.Served?
  }

  /** When the caller of an entry may proceed: the time of its charge and the delay that its event tells. */
  function DoneAt(s: Engine, e: Entry): real
    requires IsServed(s, e)
  {
    e.at + s.calls[e.no].fate.delay
  }

  /** Two callers may proceed in this order, and what passes in between fits burst and refill. */
  ghost predicate Paced(p: B.Profile, log: seq<B.Request>, i: nat, ci: real, j: nat, cj: real)
    requires i <= j < |log|
  {
    ci <= cj && B.BytesAfter(log, i, j) as real <= p.burst as real + B.Earned(p, cj - ci)
  }

  lemma LedgerIsPaced(p: B.Profile, start: real, ledger: seq<Entry>, i: nat, j: nat)
    requires p.rate > 0.0 && B.Proper(start, Requests(ledger)) && i <= j < |ledger|
    requires ledger[i].bytes > 0 && ledger[j].bytes > 0
    ensures
      var ci, cj := ledger[i].at + WaitAt(p, start, ledger, i), ledger[j].at + WaitAt(p, start, ledger, j);
      Paced(p, Requests(ledger), i, ci, j, cj)
  {
    WaitIsCompletion(p, start, ledger, i);
    WaitIsCompletion(p, start, ledger, j);
    B.WindowBound(p, start, Requests(ledger), i, j);
  }

  lemma LedgerWaitIsLeast(p: B.Profile, start: real, ledger: seq<Entry>, j: nat, w: real)
    requires p.rate > 0.0 && w >= 0.0 && B.Proper(start, Requests(ledger)) && j < |ledger|
    ensures B.Covered(p, Requests(ledger)[..j + 1], ledger[j].at + w) <==> WaitAt(p, start, ledger, j) <= w
  {
    B.LeastWaitInside(p, start, Requests(ledger), j, w);
  }

  /** The ledger of a run is one that the bucket theory speaks about. */
  lemma RunLedger(cfg: Config, n: nat, start: real, steps: seq<Step>, op: FsOp, tier: Tier, i: nat)
    requires CanRun(cfg, Init(cfg, n, start), steps) && BandwidthOf(Policy(cfg, op), tier).Some?
    requires
      var ledger := Entries(cfg, Init(cfg, n, start), steps, Idx(op), tier);
      InOrder(start, ledger) && i < |ledger|
    ensures
      var s, p := Run(cfg, Init(cfg, n, start), steps), BandwidthOf(Policy(cfg, op), tier).value;
      var ledger := Entries(cfg, Init(cfg, n, start), steps, Idx(op), tier);
      && B.Proper(start, Requests(ledger)) && ledger[i].bytes > 0
      && EntryOk(cfg, s, Idx(op), tier, ledger[i], WaitAt(p, start, ledger, i))
  {
    var s, p := Run(cfg, Init(cfg, n, start), steps), BandwidthOf(Policy(cfg, op), tier).value;
    var ledger := Entries(cfg, Init(cfg, n, start), steps, Idx(op), tier);
    BucketsReplayCharges(cfg, n, start, steps, op, tier);
    var waits := Waits(p, start, ledger);
    forall k: nat | k < |ledger| ensures ledger[k].bytes > 0 {
      assert EntryOk(cfg, s, Idx(op), tier, ledger[k], waits[k]);
    }
    assert EntryOk(cfg, s, Idx(op), tier, ledger[i], waits[i]);
    LedgerIsProper(start, ledger);
  }

  /** So, with a positive rate and a clock that does not go back, callers of any threads proceed in
      the order of their charges, and between two of them no more bytes pass than burst plus refill. */
  lemma EngineWindow(cfg: Config, n: nat, start: real, steps: seq<Step>, op: FsOp, tier: Tier, i: nat, j: nat)
    requires CanRun(cfg, Init(cfg, n, start), steps) && BandwidthOf(Policy(cfg, op), tier).Some?
    requires BandwidthOf(Policy(cfg, op), tier).value.rate > 0.0
    requires
      var ledger := Entries(cfg, Init(cfg, n, start), steps, Idx(op), tier);
      InOrder(start, ledger) && i <= j < |ledger|
    ensures
      var s, p := Run(cfg, Init(cfg, n, start), steps), BandwidthOf(Policy(cfg, op), tier).value;
      var ledger := Entries(cfg, Init(cfg, n, start), steps, Idx(op), tier);
      && IsServed(s, ledger[i]) && IsServed(s, ledger[j])
      && Paced(p, Requests(ledger), i, DoneAt(s, ledger[i]), j, DoneAt(s, ledger[j]))
  {
    RunLedger(cfg, n, start, steps, op, tier, i);
    RunLedger(cfg, n, start, steps, op, tier, j);
    LedgerIsPaced(BandwidthOf(Policy(cfg, op), tier).value, start,
                  Entries(cfg, Init(cfg, n, start), steps, Idx(op), tier), i, j);
  }

  /** And every delay is the least with which the whole history of charges to the bucket is covered. */
  lemma EngineDelayIsLeast(cfg: Config, n: nat, start: real, steps: seq<Step>, op: FsOp, tier: Tier, j: nat, w: real)
    requires CanRun(cfg, Init(cfg, n, start), steps) && BandwidthOf(Policy(cfg, op), tier).Some?
    requires BandwidthOf(Policy(cfg, op), tier).value.rate > 0.0 && w >= 0.0
    requires
      var ledger := Entries(cfg, Init(cfg, n, start), steps, Idx(op), tier);
      InOrder(start, ledger) && j < |ledger|
    ensures
      var s, p := Run(cfg, Init(cfg, n, start), steps), BandwidthOf(Policy(cfg, op), tier).value;
      var ledger := Entries(cfg, Init(cfg, n, start), steps, Idx(op), tier);
      && IsServed(s, ledger[j])
      && (B.Covered(p, Requests(ledger)[..j + 1], ledger[j].at + w) <==> s.calls[ledger[j].no].fate.delay <= w)
  {
    RunLedger(cfg, n, start, steps, op, tier, j);
    LedgerWaitIsLeast(BandwidthOf(Policy(cfg, op), tier).value, start,
                      Entries(cfg, Init(cfg, n, start), steps, Idx(op), tier), j, w);
  }

  /** How many calls of a ledger had to wait for bandwidth. */
  function Delayed(s: Engine, ledger: seq<Entry>): nat {
    if ledger == [] then 0
    else
      var last := ledger[|ledger| - 1];
      Delayed(s, ledger[..|ledger| - 1]) +
      if IsServed(s, last) && s.calls[last.no].fate.delay > 0.0 then 1 else 0
  }

  /** How many waits of a ledger are positive. */
  function PositiveWaits(waits: seq<real>): nat {
    if waits == [] then 0 else PositiveWaits(waits[..|waits| - 1]) + if waits[|waits| - 1] > 0.0 then 1 else 0
  }

  lemma {:induction false} ThrottledWaits(p: B.Profile, start: real, ledger: seq<Entry>)
    ensures B.Replay(p, start, Requests(ledger)).throttled == PositiveWaits(Waits(p, start, ledger))
  {
    if ledger != [] {
      var init, last := ledger[..|ledger| - 1], ledger[|ledger| - 1];
      ThrottledWaits(p, start, init);
      assert init + [last] == ledger;
      LedgerGrows(p, start, init, last);
      B.ReserveCounts(p, B.Replay(p, start, Requests(init)), last.bytes, last.at);
      assert Waits(p, start, ledger)[..|init|] == Waits(p, start, init);
    }
  }

  lemma {:induction false} DelaysAreWaits(cfg: Config, s: Engine, o: nat, tier: Tier,
                                          ledger: seq<Entry>, waits: seq<real>)
    requires EntriesOk(cfg, s, o, tier, ledger, waits)
    ensures Delayed(s, ledger) == PositiveWaits(waits)
  {
    if ledger != [] {
      var k := |ledger| - 1;
      assert EntryOk(cfg, s, o, tier, ledger[k], waits[k]);
      DelaysAreWaits(cfg, s, o, tier, ledger[..k], waits[..k]);
    }
  }

  /** Over any run, a bucket's throttle count is the number of the calls charged to it that were delayed,
      and its total that of their bytes, as far as 64 bits reach. */
  lemma EngineTotals(cfg: Config, n: nat, start: real, steps: seq<Step>, op: FsOp, tier: Tier)
    requires CanRun(cfg, Init(cfg, n, start), steps) && BandwidthOf(Policy(cfg, op), tier).Some?
    ensures
      var s := Run(cfg, Init(cfg, n, start), steps);
      var ledger := Entries(cfg, Init(cfg, n, start), steps, Idx(op), tier);
      && Shape(s) && BucketOf(s, Idx(op), tier).Some?
      && BucketOf(s, Idx(op), tier).value.throttled == Delayed(s, ledger)
      && var bytes := B.BytesFrom(Requests(ledger), 0);
         BucketOf(s, Idx(op), tier).value.totalBytes ==
         if bytes < 0x1_0000_0000_0000_0000 then bytes else 0xFFFF_FFFF_FFFF_FFFF
  {
    var p := BandwidthOf(Policy(cfg, op), tier).value;
    var ledger := Entries(cfg, Init(cfg, n, start), steps, Idx(op), tier);
    BucketsReplayCharges(cfg, n, start, steps, op, tier);
    ThrottledWaits(p, start, ledger);
    DelaysAreWaits(cfg, Run(cfg, Init(cfg, n, start), steps), Idx(op), tier, ledger, Waits(p, start, ledger));
    B.TotalIsSum(p, start, Requests(ledger));
  }

  // ---------------------------------------------------------------- calls without delay

  /** Metadata calls, empty ones, and those of a tier without bucket do not wait for bandwidth. */
  predicate Free(cfg: Config, ctx: OpContext) {
    !IsData(ctx.op) || ctx.len == 0 || BandwidthOf(Policy(cfg, ctx.op), TierOf(cfg, ctx)).None?
  }

  ghost predicate FreeDoNotWait(cfg: Config, s: Engine) {
    forall i | 0 <= i < |s.calls| && s.calls[i].fate.Served? && Free(cfg, s.calls[i].ctx) ::
      s.calls[i].fate.delay == 0.0
  }

  lemma StepKeepsFree(cfg: Config, s: Engine, step: Step)
    requires CallsOk(s) && FatesOk(cfg, s) && Enabled(s, step) && FreeDoNotWait(cfg, s)
    ensures FreeDoNotWait(cfg, Apply(cfg, s, step))
  {
    StepSettles(cfg, s, step);
    if step.Charge? {
      ChargeOfFree(cfg, s, step.t, step.now);
    } else {
      OtherStepServesNobody(cfg, s, step);
    }
  }

  lemma ChargeOfFree(cfg: Config, s: Engine, t: nat, now: real)
    requires Enabled(s, Charge(t, now))
    ensures
      var s', pc := ApplyCharge(cfg, s, t, now), s.pcs[t];
      && s'.calls == s.calls[pc.no := s.calls[pc.no].(fate := s'.calls[pc.no].fate)]
      && s'.calls[pc.no].fate.Served? && (Free(cfg, pc.ctx) ==> s'.calls[pc.no].fate.delay == 0.0)
  {
  }

  lemma {:induction false} RunKeepsFree(cfg: Config, s: Engine, steps: seq<Step>)
    requires Inv(cfg, s) && CanRun(cfg, s, steps) && FreeDoNotWait(cfg, s)
    ensures FreeDoNotWait(cfg, Run(cfg, s, steps))
    decreases |steps|
  {
    if steps != [] {
      StepKeepsInv(cfg, s, steps[0]);
      StepKeepsFree(cfg, s, steps[0]);
      RunKeepsFree(cfg, Apply(cfg, s, steps[0]), steps[1..]);
    }
  }

  /** The delay that an event tells is its call's, and none for a call that reserves nothing. */
  lemma EventDelays(cfg: Config, n: nat, start: real, steps: seq<Step>, k: nat)
    requires CanRun(cfg, Init(cfg, n, start), steps) && k < |Run(cfg, Init(cfg, n, start), steps).events|
    ensures
      var s := Run(cfg, Init(cfg, n, start), steps);
      var e := s.events[k];
      && e.no < |s.calls|
      && (s.calls[e.no].fate.Served? ==> e.delay == s.calls[e.no].fate.delay)
      && (s.calls[e.no].fate.TurnedAway? || Free(cfg, s.calls[e.no].ctx) ==> e.delay == 0.0)
  {
    var s := Run(cfg, Init(cfg, n, start), steps);
    InitInv(cfg, n, start);
    InitShape(cfg, n, start);
    RunKeepsInv(cfg, Init(cfg, n, start), steps);
    RunKeepsFree(cfg, Init(cfg, n, start), steps);
    assert Tells(s.events[k], s.calls[s.events[k].no]);
  }
}
