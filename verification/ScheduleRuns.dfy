/** Schedules made to measure: one call after the other, and a crowd that asks all at once. */
module ScheduleRuns {
  import opened SampleKeys
  import opened EngineProtocol
  import opened EngineInvariant
  import opened EngineTheorems
  import L = LimiterProtocol

  /** A call that a thread makes. */
  datatype Task = Task(t: nat, ctx: OpContext)

  function StartOf(step: Step): seq<Task> {
    if step.Start? then [Task(step.t, step.ctx)] else []
  }

  /** The calls of a run in the order in which they start, which is the order of their numbers. */
  function Starts(steps: seq<Step>): seq<Task> {
    if steps == [] then [] else StartOf(steps[0]) + Starts(steps[1..])
  }

  lemma {:induction false} StartsConcat(first: seq<Step>, rest: seq<Step>)
    ensures Starts(first + rest) == Starts(first) + Starts(rest)
  {
    if first == [] {
      assert first + rest == rest;
    } else {
      var all := first + rest;
      assert all[0] == first[0] && all[1..] == first[1..] + rest;
      StartsConcat(first[1..], rest);
      assert StartOf(first[0]) + (Starts(first[1..]) + Starts(rest)) == Starts(first) + Starts(rest);
    }
  }

  lemma {:induction false} NoStarts(steps: seq<Step>)
    requires forall i | 0 <= i < |steps| :: !steps[i].Start?
    ensures Starts(steps) == []
  {
    if steps != [] {
      NoStarts(steps[1..]);
    }
  }

  /** The states that runs of `n` threads reach. */
  ghost predicate ReachableWith(cfg: Config, n: nat, s: Engine) {
    exists now: real, steps: seq<Step> :: Leads(cfg, Init(cfg, n, now), steps, s)
  }

  /** A run of `n` threads leads to `s`, with the facts that hold after every such run. */
  ghost predicate Leading(cfg: Config, n: nat, now: real, steps: seq<Step>, s: Engine) {
    Leads(cfg, Init(cfg, n, now), steps, s) && Inv(cfg, s) && |s.pcs| == n
  }

  lemma EveryRunLeads(cfg: Config, n: nat, now: real, steps: seq<Step>, s: Engine)
    requires Leads(cfg, Init(cfg, n, now), steps, s)
    ensures Leading(cfg, n, now, steps, s)
  {
    InitInv(cfg, n, now);
    RunKeepsInv(cfg, Init(cfg, n, now), steps);
    RunSettles(cfg, Init(cfg, n, now), steps);
  }

  lemma ReachableWithInv(cfg: Config, n: nat, s: Engine)
    requires ReachableWith(cfg, n, s)
    ensures Inv(cfg, s) && |s.pcs| == n && Reachable(cfg, s)
  {
    var now: real, steps: seq<Step> :| Leads(cfg, Init(cfg, n, now), steps, s);
    EveryRunLeads(cfg, n, now, steps, s);
  }

  lemma LeadingOn(cfg: Config, n: nat, now: real, steps: seq<Step>, s: Engine, step: Step)
    requires Leading(cfg, n, now, steps, s) && Enabled(s, step)
    ensures Leading(cfg, n, now, steps + [step], Apply(cfg, s, step))
    ensures Settled(s, Apply(cfg, s, step))
  {
    LeadsOn(cfg, Init(cfg, n, now), steps, s, step);
    StepSettles(cfg, s, step);
  }

  lemma {:induction false} RunFurther(cfg: Config, start: Engine, first: seq<Step>, mid: Engine,
                                      rest: seq<Step>, end: Engine)
    requires Leads(cfg, start, first, mid) && Leads(cfg, mid, rest, end)
    ensures Leads(cfg, start, first + rest, end)
    decreases |rest|
  {
    if rest == [] {
      assert first + rest == first;
    } else {
      RunSnoc(cfg, start, first, rest[0]);
      RunFurther(cfg, start, first + [rest[0]], Apply(cfg, mid, rest[0]), rest[1..], end);
      assert first + [rest[0]] + rest[1..] == first + rest;
    }
  }

  lemma {:induction false} DrainStartsNothing(cfg: Config, s: Engine, steps: seq<Step>)
    requires DrainRun(cfg, s, steps)
    ensures |Run(cfg, s, steps).calls| == |s.calls|
    decreases |steps|
  {
    if steps != [] {
      assert forall i | 0 <= i < |steps| - 1 :: steps[1..][i] == steps[i + 1];
      DrainStartsNothing(cfg, Apply(cfg, s, steps[0]), steps[1..]);
    }
  }

  /** Every run can be drained, without new calls and without changing what is decided. */
  lemma Drained(cfg: Config, n: nat, now: real, steps: seq<Step>, s: Engine) returns (all: seq<Step>, e: Engine)
    requires Leading(cfg, n, now, steps, s)
    ensures Leading(cfg, n, now, all, e) && Quiet(e) && |e.calls| == |s.calls| && Settled(s, e)
    ensures Starts(all) == Starts(steps)
  {
    var rest := DrainCompletes(cfg, s);
    e := Run(cfg, s, rest);
    all := steps + rest;
    RunFurther(cfg, Init(cfg, n, now), steps, s, rest, e);
    RunKeepsInv(cfg, s, rest);
    RunSettles(cfg, s, rest);
    DrainStartsNothing(cfg, s, rest);
    NoStarts(rest);
    StartsConcat(steps, rest);
  }

  // ---------------------------------------------------------------- asking for a slot

  function LimiterOf(s: Engine, op: FsOp): L.State
    requires Shape(s)
  {
    s.limiters[Idx(op)]
  }

  function Load(s: Engine, op: FsOp): int
    requires Shape(s)
  {
    LimiterOf(s, op).inflight + LimiterOf(s, op).queued
  }

  lemma LimiterFacts(cfg: Config, s: Engine, op: FsOp)
    requires Inv(cfg, s)
    ensures
      var lim := LimiterOf(s, op);
      && L.Inv(lim) && lim.cap == Policy(cfg, op).cap && lim.queueCap == Policy(cfg, op).queueCap
      && |lim.threads| == |s.pcs|
  {
    assert ALL[Idx(op)] == op;
  }

  /** Thread `t` starts a call. */
  lemma StartCall(cfg: Config, n: nat, now: real, steps: seq<Step>, s: Engine, t: nat, ctx: OpContext)
    returns (e: Engine)
    requires Leading(cfg, n, now, steps, s) && t < n && s.pcs[t].Ready?
    ensures Leading(cfg, n, now, steps + [Start(t, ctx)], e) && Enabled(e, Acquire(t))
    ensures e.pcs == s.pcs[t := Numbered(|s.calls|, ctx)] && e.limiters == s.limiters
    ensures e.calls == s.calls + [Call(ctx, At(t), Pending)]
  {
    LeadingOn(cfg, n, now, steps, s, Start(t, ctx));
    e := Apply(cfg, s, Start(t, ctx));
    assert PhaseMatches(e.pcs[t], Idx(ctx.op), e.limiters[Idx(ctx.op)].threads[t]);
  }

  /** What becomes of a call that asks for a slot: admitted while one is free, queued while there is
      room, and refused otherwise. */
  lemma AcquireOutcome(cfg: Config, s: Engine, t: nat)
    requires Inv(cfg, s) && t < |s.pcs| && s.pcs[t].Numbered? && Enabled(s, Acquire(t))
    ensures
      var op, no, e := s.pcs[t].ctx.op, s.pcs[t].no, Apply(cfg, s, Acquire(t));
      var cap, room := Policy(cfg, op).cap, Policy(cfg, op).cap + Policy(cfg, op).queueCap;
      && Shape(e) && e.pcs == s.pcs[t := e.pcs[t]] && no < |s.calls| == |e.calls|
      && (cap > 0 && Load(s, op) < room ==>
            Load(e, op) == Load(s, op) + 1 && e.calls == s.calls
            && (LimiterOf(s, op).inflight < cap ==> e.pcs[t] == Admitted(no, s.pcs[t].ctx)))
      && (cap == 0 || Load(s, op) >= room ==> e.calls[no].fate == TurnedAway && e.pcs[t].Refused?)
  {
    LimiterFacts(cfg, s, s.pcs[t].ctx.op);
  }

  /** Thread `t` starts a call and asks for its slot. */
  lemma Ask(cfg: Config, n: nat, steps: seq<Step>, s: Engine, t: nat, ctx: OpContext)
    returns (all: seq<Step>, e: Engine)
    requires Leading(cfg, n, 0.0, steps, s) && t < n && s.pcs[t].Ready?
    ensures all == steps + [Start(t, ctx), Acquire(t)]
    ensures Leading(cfg, n, 0.0, all, e) && e.pcs == s.pcs[t := e.pcs[t]]
    ensures |e.calls| == |s.calls| + 1 && e.calls[|s.calls|].ctx == ctx && Settled(s, e)
    ensures
      var cap, room := Policy(cfg, ctx.op).cap, Policy(cfg, ctx.op).cap + Policy(cfg, ctx.op).queueCap;
      && (cap > 0 && Load(s, ctx.op) < room ==> Load(e, ctx.op) == Load(s, ctx.op) + 1)
      && (LimiterOf(s, ctx.op).inflight < cap && Load(s, ctx.op) < room ==> e.pcs[t] == Admitted(|s.calls|, ctx))
      && (cap == 0 || Load(s, ctx.op) >= room ==> e.calls[|s.calls|].fate == TurnedAway)
  {
    LimiterFacts(cfg, s, ctx.op);
    var asking := StartCall(cfg, n, 0.0, steps, s, t, ctx);
    AcquireOutcome(cfg, asking, t);
    all := steps + [Start(t, ctx)];
    LeadingOn(cfg, n, 0.0, all, asking, Acquire(t));
    all := all + [Acquire(t)];
    assert all == steps + [Start(t, ctx), Acquire(t)];
    e := Apply(cfg, asking, Acquire(t));
  }

  lemma NothingDoneYet(cfg: Config, n: nat)
    ensures
      var s := Init(cfg, n, 0.0);
      Leading(cfg, n, 0.0, [], s) && Quiet(s) && s.calls == [] && forall op: FsOp :: Load(s, op) == 0
  {
    InitInv(cfg, n, 0.0);
    InitShape(cfg, n, 0.0);
  }

  /** Threads 0 .. k - 1 have asked for a slot of the operation of `ctx`, and none has left. */
  ghost predicate IsCrowd(s: Engine, ctx: OpContext, k: nat) {
    && Shape(s) && Load(s, ctx.op) == k == |s.calls|
    && (forall t | k <= t < |s.pcs| :: s.pcs[t].Ready?)
    && (forall i | 0 <= i < k :: s.calls[i].ctx == ctx)
  }

  lemma CrowdGrows(crowd: Engine, s: Engine, ctx: OpContext, k: nat)
    requires IsCrowd(crowd, ctx, k) && k < |crowd.pcs| == |s.pcs| && s.pcs == crowd.pcs[k := s.pcs[k]]
    requires Settled(crowd, s)
    requires |s.calls| == k + 1 && s.calls[k].ctx == ctx
    ensures forall t | k < t < |s.pcs| :: s.pcs[t].Ready?
    ensures forall i | 0 <= i <= k :: s.calls[i].ctx == ctx
  {
  }

  lemma OneMoreAsks(cfg: Config, n: nat, before: seq<Step>, crowd: Engine, ctx: OpContext, k: nat)
    returns (steps: seq<Step>, s: Engine)
    requires Leading(cfg, n, 0.0, before, crowd) && IsCrowd(crowd, ctx, k) && k < n
    ensures Leading(cfg, n, 0.0, steps, s) && |s.calls| == k + 1
    ensures forall i | 0 <= i <= k :: s.calls[i].ctx == ctx
    ensures
      var cap, room := Policy(cfg, ctx.op).cap, Policy(cfg, ctx.op).cap + Policy(cfg, ctx.op).queueCap;
      && (cap > 0 && k < room ==> IsCrowd(s, ctx, k + 1))
      && (cap == 0 || k >= room ==> s.calls[k].fate == TurnedAway)
  {
    steps, s := Ask(cfg, n, before, crowd, k, ctx);
    CrowdGrows(crowd, s, ctx, k);
  }

  lemma {:induction false} Crowd(cfg: Config, n: nat, ctx: OpContext, k: nat) returns (steps: seq<Step>, s: Engine)
    requires k <= n && (k > 0 ==> Policy(cfg, ctx.op).cap > 0)
    requires k <= Policy(cfg, ctx.op).cap + Policy(cfg, ctx.op).queueCap
    ensures Leading(cfg, n, 0.0, steps, s) && IsCrowd(s, ctx, k)
  {
    if k == 0 {
      steps, s := [], Init(cfg, n, 0.0);
      NothingDoneYet(cfg, n);
    } else {
      var before, crowd := Crowd(cfg, n, ctx, k - 1);
      steps, s := OneMoreAsks(cfg, n, before, crowd, ctx, k - 1);
    }
  }

  /** With more threads than slots and queue places, or no slot at all, the last one is turned away. */
  lemma CrowdedOut(cfg: Config, n: nat, ctx: OpContext) returns (steps: seq<Step>, s: Engine, last: nat)
    requires n > 0 && (Policy(cfg, ctx.op).cap == 0 || n > Policy(cfg, ctx.op).cap + Policy(cfg, ctx.op).queueCap)
    ensures Leading(cfg, n, 0.0, steps, s) && |s.calls| == last + 1 && s.calls[last].fate == TurnedAway
    ensures forall i | 0 <= i <= last :: s.calls[i].ctx == ctx
  {
    last := if Policy(cfg, ctx.op).cap == 0 then 0 else Policy(cfg, ctx.op).cap + Policy(cfg, ctx.op).queueCap;
    var before, crowd := Crowd(cfg, n, ctx, last);
    steps, s := OneMoreAsks(cfg, n, before, crowd, ctx, last);
  }

  // ---------------------------------------------------------------- one call after the other

  /** From a quiet state, one more call runs to its end; it is served if its operation has slots. */
  lemma OneMoreCall(cfg: Config, n: nat, steps: seq<Step>, s: Engine, task: Task) returns (all: seq<Step>, e: Engine)
    requires Leading(cfg, n, 0.0, steps, s) && Quiet(s) && task.t < n
    ensures Leading(cfg, n, 0.0, all, e) && Quiet(e) && |e.calls| == |s.calls| + 1 && Settled(s, e)
    ensures e.calls[|s.calls|].ctx == task.ctx
    ensures Policy(cfg, task.ctx.op).cap > 0 ==> e.calls[|s.calls|].fate.Served?
    ensures Starts(all) == Starts(steps) + [task]
  {
    QuietState(cfg, s);
    LimiterFacts(cfg, s, task.ctx.op);
    var asked, asking := Ask(cfg, n, steps, s, task.t, task.ctx);
    StartsConcat(steps, [Start(task.t, task.ctx), Acquire(task.t)]);
    OneStart(task);
    if Policy(cfg, task.ctx.op).cap > 0 {
      all, e := ServeToEnd(cfg, n, asked, asking, task.t);
    } else {
      all, e := Drained(cfg, n, 0.0, asked, asking);
    }
  }

  lemma OneStart(task: Task)
    ensures Starts([Start(task.t, task.ctx), Acquire(task.t)]) == [task]
  {
    var steps := [Start(task.t, task.ctx), Acquire(task.t)];
    assert steps[1..] == [Acquire(task.t)] && steps[1..][1..] == [];
    assert Starts(steps[1..]) == [];
  }

  lemma ServeToEnd(cfg: Config, n: nat, steps: seq<Step>, s: Engine, t: nat) returns (all: seq<Step>, e: Engine)
    requires Leading(cfg, n, 0.0, steps, s) && t < n && s.pcs[t].Admitted?
    ensures Leading(cfg, n, 0.0, all, e) && Quiet(e) && |e.calls| == |s.calls| && Settled(s, e)
    ensures s.pcs[t].no < |e.calls| && e.calls[s.pcs[t].no].fate.Served?
    ensures Starts(all) == Starts(steps)
  {
    LeadingOn(cfg, n, 0.0, steps, s, Charge(t, 0.0));
    StartsConcat(steps, [Charge(t, 0.0)]);
    NoStarts([Charge(t, 0.0)]);
    all, e := Drained(cfg, n, 0.0, steps + [Charge(t, 0.0)], Apply(cfg, s, Charge(t, 0.0)));
  }

  /** The calls of `s` are the tasks, and those whose operation has slots are served. */
  ghost predicate HasRun(cfg: Config, s: Engine, tasks: seq<Task>) {
    && |s.calls| == |tasks|
    && (forall i | 0 <= i < |tasks| :: s.calls[i].ctx == tasks[i].ctx)
    && (forall i | 0 <= i < |tasks| && Policy(cfg, tasks[i].ctx.op).cap > 0 :: s.calls[i].fate.Served?)
  }

  lemma OneMoreHasRun(cfg: Config, s: Engine, e: Engine, tasks: seq<Task>, task: Task)
    requires HasRun(cfg, s, tasks) && Settled(s, e) && |e.calls| == |s.calls| + 1
    requires e.calls[|s.calls|].ctx == task.ctx
    requires Policy(cfg, task.ctx.op).cap > 0 ==> e.calls[|s.calls|].fate.Served?
    ensures HasRun(cfg, e, tasks + [task])
  {
  }

  lemma OneMoreTask(cfg: Config, n: nat, before: seq<Step>, done: Engine, tasks: seq<Task>, task: Task)
    returns (steps: seq<Step>, s: Engine)
    requires Leading(cfg, n, 0.0, before, done) && Quiet(done) && task.t < n
    requires Starts(before) == tasks && HasRun(cfg, done, tasks)
    ensures Leading(cfg, n, 0.0, steps, s) && Quiet(s)
    ensures Starts(steps) == tasks + [task] && HasRun(cfg, s, tasks + [task])
  {
    steps, s := OneMoreCall(cfg, n, before, done, task);
    OneMoreHasRun(cfg, done, s, tasks, task);
  }

  /** A run in which each call is over before the next one starts. */
  lemma {:induction false} OneByOne(cfg: Config, n: nat, tasks: seq<Task>) returns (steps: seq<Step>, s: Engine)
    requires forall i | 0 <= i < |tasks| :: tasks[i].t < n
    ensures Leading(cfg, n, 0.0, steps, s) && Quiet(s) && Starts(steps) == tasks && HasRun(cfg, s, tasks)
    decreases |tasks|
  {
    if tasks == [] {
      steps, s := [], Init(cfg, n, 0.0);
      NothingDoneYet(cfg, n);
    } else {
      var init, last := tasks[..|tasks| - 1], tasks[|tasks| - 1];
      assert init + [last] == tasks;
      var before, done := OneByOne(cfg, n, init);
      steps, s := OneMoreTask(cfg, n, before, done, init, last);
    }
  }
}
