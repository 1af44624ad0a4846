/** What the events of a run say when the reply bodies are given: the injected fault, else the body's result. */
module ReplyBodies {
  import opened Wrappers
  import opened EngineProtocol
  import opened EngineInvariant

  /** The result of each call's body, if it is run: `None` for success, or an errno. */
  type Bodies = (OpContext, nat) -> Option<int>

  /** The bodies that are run give these results. */
  predicate Follows(cfg: Config, s: Engine, steps: seq<Step>, bodies: Bodies)
    requires CanRun(cfg, s, steps)
    decreases |steps|
  {
    steps != [] ==>
      && (steps[0].Finish? ==> steps[0].body == bodies(s.pcs[steps[0].t].ctx, s.pcs[steps[0].t].no))
      && Follows(cfg, Apply(cfg, s, steps[0]), steps[1..], bodies)
  }

  /** The result of call `no`: a fault skips the body. */
  function ResultOf(inj: Injection, bodies: Bodies, ctx: OpContext, no: nat): Option<int> {
    if inj.fault.Some? then inj.fault else bodies(ctx, no)
  }

  predicate SaysResult(e: Event, c: Call, bodies: Bodies) {
    c.fate.Served? ==> e.errno == ResultOf(c.fate.inj, bodies, c.ctx, e.no)
  }

  predicate HasResult(pc: Pc, bodies: Bodies) {
    pc.Finished? ==> pc.errno == ResultOf(pc.inj, bodies, pc.ctx, pc.no)
  }

  ghost predicate PcsHaveResults(s: Engine, bodies: Bodies) {
    forall t | 0 <= t < |s.pcs| :: HasResult(s.pcs[t], bodies)
  }

  ghost predicate EventsHaveResults(s: Engine, bodies: Bodies)
    requires CallsOk(s)
  {
    forall k | 0 <= k < |s.events| :: SaysResult(s.events[k], s.calls[s.events[k].no], bodies)
  }

  /** Events that are in the log keep saying the truth. */
  lemma OldEventsStayTrue(cfg: Config, s: Engine, s': Engine, bodies: Bodies, k: nat)
    requires CallsOk(s) && FatesOk(cfg, s) && EventsHaveResults(s, bodies) && Settled(s, s') && k < |s.events|
    ensures SaysResult(s.events[k], s'.calls[s.events[k].no], bodies)
  {
    assert Tells(s.events[k], s.calls[s.events[k].no]);
    assert SaysResult(s.events[k], s.calls[s.events[k].no], bodies);
  }

  lemma NewEventSaysResult(cfg: Config, s: Engine, t: nat, bodies: Bodies)
    requires CallsOk(s) && FatesOk(cfg, s) && Enabled(s, Emit(t)) && HasResult(s.pcs[t], bodies)
    ensures SaysResult(EventOf(s.pcs[t]), ApplyEmit(s, t).calls[s.pcs[t].no], bodies)
  {
    assert FateMatches(s.pcs[t], s.calls[s.pcs[t].no].fate);
  }

  lemma StepGivesResult(cfg: Config, s: Engine, step: Step, bodies: Bodies)
    requires Enabled(s, step) && HasResult(s.pcs[step.t], bodies)
    requires step.Finish? ==> step.body == bodies(s.pcs[step.t].ctx, s.pcs[step.t].no)
    ensures
      var s' := Apply(cfg, s, step);
      s'.pcs == s.pcs[step.t := s'.pcs[step.t]] && HasResult(s'.pcs[step.t], bodies)
  {
  }

  lemma StepKeepsPcResults(cfg: Config, s: Engine, step: Step, bodies: Bodies)
    requires Enabled(s, step) && PcsHaveResults(s, bodies)
    requires step.Finish? ==> step.body == bodies(s.pcs[step.t].ctx, s.pcs[step.t].no)
    ensures PcsHaveResults(Apply(cfg, s, step), bodies)
  {
    StepGivesResult(cfg, s, step, bodies);
  }

  lemma OnlyEmitAddsEvents(cfg: Config, s: Engine, step: Step)
    requires Enabled(s, step)
    ensures Apply(cfg, s, step).events == if step.Emit? then s.events + [EventOf(s.pcs[step.t])] else s.events
  {
  }

  lemma StepKeepsEventResults(cfg: Config, s: Engine, step: Step, bodies: Bodies)
    requires CallsOk(s) && FatesOk(cfg, s) && Enabled(s, step) && CallsOk(Apply(cfg, s, step))
    requires PcsHaveResults(s, bodies) && EventsHaveResults(s, bodies)
    ensures EventsHaveResults(Apply(cfg, s, step), bodies)
  {
    var s' := Apply(cfg, s, step);
    OnlyEmitAddsEvents(cfg, s, step);
    StepSettles(cfg, s, step);
    forall k: nat | k < |s'.events| ensures SaysResult(s'.events[k], s'.calls[s'.events[k].no], bodies) {
      if k < |s.events| {
        OldEventsStayTrue(cfg, s, s', bodies, k);
      } else {
        NewEventSaysResult(cfg, s, step.t, bodies);
      }
    }
  }

  lemma {:induction false} RunKeepsResults(cfg: Config, s: Engine, steps: seq<Step>, bodies: Bodies)
    requires CanRun(cfg, s, steps) && Follows(cfg, s, steps, bodies)
    requires Inv(cfg, s) && PcsHaveResults(s, bodies) && EventsHaveResults(s, bodies)
    ensures Inv(cfg, Run(cfg, s, steps)) && EventsHaveResults(Run(cfg, s, steps), bodies)
    decreases |steps|
  {
    if steps != [] {
      StepKeepsInv(cfg, s, steps[0]);
      StepKeepsPcResults(cfg, s, steps[0], bodies);
      StepKeepsEventResults(cfg, s, steps[0], bodies);
      RunKeepsResults(cfg, Apply(cfg, s, steps[0]), steps[1..], bodies);
    }
  }

  /** In every run, the event of a served call reports the injected fault, and without one exactly
      what its body gave. */
  lemma EventsSayResults(cfg: Config, n: nat, now: real, steps: seq<Step>, bodies: Bodies)
    requires CanRun(cfg, Init(cfg, n, now), steps) && Follows(cfg, Init(cfg, n, now), steps, bodies)
    ensures
      var s := Run(cfg, Init(cfg, n, now), steps);
      && Inv(cfg, s)
      && forall k | 0 <= k < |s.events| ::
           && s.events[k].no < |s.calls|
           && var e, c := s.events[k], s.calls[s.events[k].no];
              c.fate.Served? ==>
                e.errno == if c.fate.inj.fault.Some? then c.fate.inj.fault else bodies(c.ctx, e.no)
  {
    InitInv(cfg, n, now);
    InitShape(cfg, n, now);
    RunKeepsResults(cfg, Init(cfg, n, now), steps, bodies);
    var s := Run(cfg, Init(cfg, n, now), steps);
    forall k | 0 <= k < |s.events|
      ensures s.events[k].no < |s.calls| && SaysResult(s.events[k], s.calls[s.events[k].no], bodies)
    {
    }
  }
}
