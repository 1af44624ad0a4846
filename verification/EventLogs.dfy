/** How whole event logs agree across schedules that number the calls alike. */
module EventLogs {
  import opened Sums
  import opened Wrappers
  import opened EngineProtocol
  import opened EngineInvariant
  import opened EngineTheorems
  import opened ScheduleRuns
  import opened Determinism
  import opened ReplyBodies
  import opened WorkloadOutcomes
  import opened Workloads

  /** All of an event that does not depend on the clock. */
  function Timeless(e: Event): Event {
    e.(delay := 0.0)
  }

  lemma EventIsFixed(cfg: Config, n: nat, now: real, steps: seq<Step>, bodies: Bodies, k: nat)
    requires CanRun(cfg, Init(cfg, n, now), steps) && Follows(cfg, Init(cfg, n, now), steps, bodies)
    requires AllPredictable(cfg, n) && Quiet(Run(cfg, Init(cfg, n, now), steps))
    requires k < |Run(cfg, Init(cfg, n, now), steps).events|
    ensures
      var s := Run(cfg, Init(cfg, n, now), steps);
      && s.events[k].no < |s.calls|
      && Timeless(s.events[k]) == FixedEvent(cfg, s.calls[s.events[k].no].ctx, s.events[k].no, bodies)
  {
    var s := Run(cfg, Init(cfg, n, now), steps);
    var e := s.events[k];
    EventsSayResults(cfg, n, now, steps, bodies);
    assert Leads(cfg, Init(cfg, n, now), steps, s);
    QuietOutcome(cfg, n, s, e.no);
    assert Tells(e, s.calls[e.no]) && SaysResult(e, s.calls[e.no], bodies);
  }

  /** The event that configuration, context, number and body fix. */
  function FixedEvent(cfg: Config, ctx: OpContext, no: nat, bodies: Bodies): Event {
    match FixedOutcome(cfg, ctx, no)
    case Injected(inj) =>
      Event(no, ctx.op, ctx.ino, ctx.offset, ctx.len, ResultOf(inj, bodies, ctx, no), inj.latency, 0.0)
    case _ => Event(no, ctx.op, ctx.ino, ctx.offset, ctx.len, Some(EAGAIN), 0, 0.0)
  }

  /** With room for all threads (or no slot at all) for every operation, the logs of any two finished
      runs of the same calls, in the order of their numbers, agree event by event in everything but
      the bandwidth delay, for any numbers of threads and any interleavings. */
  lemma LogsAgree(cfg: Config, bodies: Bodies, n1: nat, now1: real, a: seq<Step>, n2: nat, now2: real, b: seq<Step>)
    requires AllPredictable(cfg, n1) && AllPredictable(cfg, n2)
    requires CanRun(cfg, Init(cfg, n1, now1), a) && Follows(cfg, Init(cfg, n1, now1), a, bodies)
    requires CanRun(cfg, Init(cfg, n2, now2), b) && Follows(cfg, Init(cfg, n2, now2), b, bodies)
    requires
      var s1, s2 := Run(cfg, Init(cfg, n1, now1), a), Run(cfg, Init(cfg, n2, now2), b);
      Quiet(s1) && Quiet(s2) && SameCalls(s1, s2)
    ensures
      var s1, s2 := Run(cfg, Init(cfg, n1, now1), a), Run(cfg, Init(cfg, n2, now2), b);
      && |s1.events| == |s2.events| == |s1.calls| && ReportedOnce(s1) && ReportedOnce(s2)
      && forall k1, k2 | 0 <= k1 < |s1.events| && 0 <= k2 < |s2.events| && s1.events[k1].no == s2.events[k2].no ::
           Timeless(s1.events[k1]) == Timeless(s2.events[k2])
  {
    var s1, s2 := Run(cfg, Init(cfg, n1, now1), a), Run(cfg, Init(cfg, n2, now2), b);
    EveryRunLeads(cfg, n1, now1, a, s1);
    EveryRunLeads(cfg, n2, now2, b, s2);
    QuietState(cfg, s1);
    QuietState(cfg, s2);
    forall k1: nat, k2: nat | k1 < |s1.events| && k2 < |s2.events| && s1.events[k1].no == s2.events[k2].no
      ensures Timeless(s1.events[k1]) == Timeless(s2.events[k2])
    {
      EventIsFixed(cfg, n1, now1, a, bodies, k1);
      EventIsFixed(cfg, n2, now2, b, bodies, k2);
    }
  }

  /** Whatever the reply bodies give, the events agree on the call and on all that is injected. */
  lemma InjectionsAgree(cfg: Config, n1: nat, s1: Engine, n2: nat, s2: Engine, k1: nat, k2: nat)
    requires AllPredictable(cfg, n1) && AllPredictable(cfg, n2)
    requires ReachableWith(cfg, n1, s1) && ReachableWith(cfg, n2, s2) && Quiet(s1) && Quiet(s2) && SameCalls(s1, s2)
    requires k1 < |s1.events| && k2 < |s2.events| && s1.events[k1].no == s2.events[k2].no
    ensures
      var e1, e2 := s1.events[k1], s2.events[k2];
      && e1.op == e2.op && e1.ino == e2.ino && e1.offset == e2.offset && e1.len == e2.len && e1.latency == e2.latency
      && e1.no < |s1.calls|
      && var outcome := FixedOutcome(cfg, s1.calls[e1.no].ctx, e1.no);
         && (outcome.Rejected? ==> e1.errno == e2.errno == Some(EAGAIN))
         && (outcome.Injected? && outcome.inj.fault.Some? ==> e1.errno == e2.errno == outcome.inj.fault)
  {
    var no := s1.events[k1].no;
    ReachableWithInv(cfg, n1, s1);
    ReachableWithInv(cfg, n2, s2);
    QuietOutcome(cfg, n1, s1, no);
    QuietOutcome(cfg, n2, s2, no);
    assert Tells(s1.events[k1], s1.calls[no]) && Tells(s2.events[k2], s2.calls[no]);
  }

  // ---------------------------------------------------------------- one program

  /** Only thread `t` is at work, and its calls are reported in the order of their numbers. */
  ghost predicate Sole(s: Engine, t: nat) {
    && t < |s.pcs| && (forall u | 0 <= u < |s.pcs| && u != t :: s.pcs[u].Ready?)
    && (Owes(s.pcs[t]) == 1 ==> s.pcs[t].no == |s.events|)
    && (forall k | 0 <= k < |s.events| :: s.events[k].no == k)
  }

  lemma {:induction false} SoleOwes(pcs: seq<Pc>, t: nat)
    requires t < |pcs| && forall u | 0 <= u < |pcs| && u != t :: pcs[u].Ready?
    ensures Sum(Owes, pcs) == Owes(pcs[t])
  {
    SumUpdate(Owes, pcs, t, Ready);
    SumZero(Owes, pcs[t := Ready]);
  }

  lemma SoleStep(cfg: Config, s: Engine, step: Step, t: nat)
    requires Enabled(s, step) && Sole(s, t) && AllBy(StartOf(step), t) && s.nextNo == |s.events| + Owes(s.pcs[t])
    ensures Sole(Apply(cfg, s, step), t)
  {
    assert step.Start? ==> StartOf(step)[0].t == step.t;
    StepKeepsContext(cfg, s, step);
    OnlyEmitAddsEvents(cfg, s, step);
    StepKeepsNumber(cfg, s, step);
  }

  lemma StepKeepsNumber(cfg: Config, s: Engine, step: Step)
    requires Enabled(s, step)
    ensures
      var pc, pc' := s.pcs[step.t], Apply(cfg, s, step).pcs[step.t];
      && (step.Start? ==> pc'.no == s.nextNo)
      && (Owes(pc') == 1 && !step.Start? ==> Owes(pc) == 1 && pc'.no == pc.no && !step.Emit?)
      && (step.Emit? ==> Owes(pc) == 1 && EventOf(pc).no == pc.no)
  {
  }

  lemma {:induction false} SoleRun(cfg: Config, s: Engine, steps: seq<Step>, t: nat)
    requires Inv(cfg, s) && CanRun(cfg, s, steps) && Sole(s, t) && AllBy(Starts(steps), t)
    ensures Sole(Run(cfg, s, steps), t)
    decreases |steps|
  {
    if steps != [] {
      SoleOwes(s.pcs, t);
      AllByParts(StartOf(steps[0]), Starts(steps[1..]), t);
      SoleStep(cfg, s, steps[0], t);
      StepKeepsInv(cfg, s, steps[0]);
      SoleRun(cfg, Apply(cfg, s, steps[0]), steps[1..], t);
    }
  }

  lemma AllByParts(first: seq<Task>, rest: seq<Task>, t: nat)
    requires AllBy(first + rest, t)
    ensures AllBy(first, t) && AllBy(rest, t)
  {
    forall k | 0 <= k < |first| ensures first[k].t == t {
      assert (first + rest)[k] == first[k];
    }
    forall k | 0 <= k < |rest| ensures rest[k].t == t {
      assert (first + rest)[|first| + k] == rest[k];
    }
  }

  /** The log that a single program fixes: its calls in order, each with its refusal or injection. */
  function FixedLog(cfg: Config, prog: seq<OpContext>, bodies: Bodies): (log: seq<Event>)
    ensures |log| == |prog|
  {
    seq(|prog|, (k: nat) requires k < |prog| => FixedEvent(cfg, prog[k], k, bodies))
  }

  lemma SoleOrder(cfg: Config, progs: seq<seq<OpContext>>, now: real, steps: seq<Step>, t: nat)
    requires t < |progs| && OneProgram(progs) && progs[t] != [] && Performs(cfg, progs, now, steps)
    ensures |Starts(steps)| == |progs[t]|
    ensures AllBy(Starts(steps), t) && forall k | 0 <= k < |Starts(steps)| :: IsNumber(Starts(steps), t, k, k)
  {
    var order := Starts(steps);
    StartsHaveThreads(cfg, Init(cfg, |progs|, now), steps);
    forall k | 0 <= k < |order| ensures order[k].t == t {
      TaskInProgram(order, k);
    }
    SoleProgramNumbers(order, t);
    forall k | 0 <= k < |order| ensures IsNumber(order, t, k, k) {
      SoleProgramNumbers(order[..k], t);
    }
  }

  /** The events of a finished run of one program count its calls. */
  lemma SoleEvents(cfg: Config, progs: seq<seq<OpContext>>, now: real, steps: seq<Step>, t: nat)
    requires t < |progs| && OneProgram(progs) && progs[t] != [] && Performs(cfg, progs, now, steps)
    ensures
      var s := Run(cfg, Init(cfg, |progs|, now), steps);
      |s.events| == |progs[t]| && forall k | 0 <= k < |s.events| :: s.events[k].no == k
  {
    var init := Init(cfg, |progs|, now);
    InitInv(cfg, |progs|, now);
    InitShape(cfg, |progs|, now);
    RunKeepsInv(cfg, init, steps);
    RunNumbersCalls(cfg, init, steps);
    QuietState(cfg, Run(cfg, init, steps));
    SoleOrder(cfg, progs, now, steps, t);
    SoleRun(cfg, init, steps, t);
  }

  lemma SoleEvent(cfg: Config, progs: seq<seq<OpContext>>, now: real, steps: seq<Step>, bodies: Bodies, t: nat, k: nat)
    requires t < |progs| && OneProgram(progs) && k < |progs[t]|
    requires Performs(cfg, progs, now, steps) && Follows(cfg, Init(cfg, |progs|, now), steps, bodies)
    requires
      var s := Run(cfg, Init(cfg, |progs|, now), steps);
      k < |s.events| && s.events[k].no == k
    ensures Timeless(Run(cfg, Init(cfg, |progs|, now), steps).events[k]) == FixedEvent(cfg, progs[t][k], k, bodies)
  {
    var s := Run(cfg, Init(cfg, |progs|, now), steps);
    SoleOrder(cfg, progs, now, steps, t);
    EventsSayResults(cfg, |progs|, now, steps, bodies);
    SoleOutcome(cfg, progs, now, steps, t, k, k);
    NumberedCall(Starts(steps), t, k, k);
    CallContext(cfg, progs, now, steps, k);
    assert Tells(s.events[k], s.calls[k]) && SaysResult(s.events[k], s.calls[k], bodies);
  }

  lemma CallContext(cfg: Config, progs: seq<seq<OpContext>>, now: real, steps: seq<Step>, k: nat)
    requires Performs(cfg, progs, now, steps) && k < |Starts(steps)|
    ensures
      var s := Run(cfg, Init(cfg, |progs|, now), steps);
      k < |s.calls| && s.calls[k].ctx == Starts(steps)[k].ctx
  {
    var init := Init(cfg, |progs|, now);
    InitInv(cfg, |progs|, now);
    RunNumbersCalls(cfg, init, steps);
    assert Run(cfg, init, steps).calls[|init.calls| + k].ctx == Starts(steps)[k].ctx;
  }

  /** If only thread `t` of a workload has anything to do, every schedule leaves the same log: that of its
      program, event by event and in order, in everything but the bandwidth delay. */
  lemma SoleLog(cfg: Config, progs: seq<seq<OpContext>>, now: real, steps: seq<Step>, bodies: Bodies, t: nat)
    requires t < |progs| && OneProgram(progs) && progs[t] != []
    requires Performs(cfg, progs, now, steps) && Follows(cfg, Init(cfg, |progs|, now), steps, bodies)
    ensures
      var s := Run(cfg, Init(cfg, |progs|, now), steps);
      && |s.events| == |progs[t]|
      && forall k | 0 <= k < |s.events| :: Timeless(s.events[k]) == FixedLog(cfg, progs[t], bodies)[k]
  {
    var s := Run(cfg, Init(cfg, |progs|, now), steps);
    SoleEvents(cfg, progs, now, steps, t);
    forall k: nat | k < |s.events| ensures Timeless(s.events[k]) == FixedEvent(cfg, progs[t][k], k, bodies) {
      SoleEvent(cfg, progs, now, steps, bodies, t, k);
    }
  }
}
