/** Workloads: each thread has its program of calls. Exactly when every schedule numbers the calls alike. */
module Workloads {
  import opened EngineProtocol
  import opened EngineInvariant
  import opened EngineTheorems
  import opened ScheduleRuns

  // ---------------------------------------------------------------- programs and numbers

  /** The calls of thread `t`, in the order in which they start. */
  function Program(order: seq<Task>, t: nat): seq<OpContext> {
    if order == [] then []
    else
      var last := order[|order| - 1];
      Program(order[..|order| - 1], t) + if last.t == t then [last.ctx] else []
  }

  /** A finished run in which thread `t` makes the calls of `progs[t]`, in this order. */
  ghost predicate Performs(cfg: Config, progs: seq<seq<OpContext>>, now: real, steps: seq<Step>) {
    && CanRun(cfg, Init(cfg, |progs|, now), steps) && Quiet(Run(cfg, Init(cfg, |progs|, now), steps))
    && forall t: nat | t < |progs| :: Program(Starts(steps), t) == progs[t]
  }

  /** Thread `t`'s call `j` has the number `k`. */
  predicate IsNumber(order: seq<Task>, t: nat, j: nat, k: nat) {
    k < |order| && order[k].t == t && |Program(order[..k], t)| == j
  }

  ghost predicate Alike(a: seq<Task>, b: seq<Task>) {
    forall t, j, k1, k2 | IsNumber(a, t, j, k1) && IsNumber(b, t, j, k2) :: k1 == k2
  }

  /** All schedules give every call of the workload the same number. */
  ghost predicate NumbersFixed(cfg: Config, progs: seq<seq<OpContext>>) {
    forall now1, a, now2, b | Performs(cfg, progs, now1, a) && Performs(cfg, progs, now2, b) ::
      Alike(Starts(a), Starts(b))
  }

  /** At most one thread has anything to do. */
  predicate OneProgram(progs: seq<seq<OpContext>>) {
    forall t, u | 0 <= t < |progs| && 0 <= u < |progs| && progs[t] != [] && progs[u] != [] :: t == u
  }

  lemma {:induction false} ProgramConcat(a: seq<Task>, b: seq<Task>, t: nat)
    ensures Program(a + b, t) == Program(a, t) + Program(b, t)
  {
    if b == [] {
      assert a + b == a;
    } else {
      var init, last := b[..|b| - 1], b[|b| - 1];
      assert (a + b)[..|a + b| - 1] == a + init;
      ProgramConcat(a, init, t);
    }
  }

  /** Thread `t`'s call `j` is the one that its program has there. */
  lemma NumberedCall(order: seq<Task>, t: nat, j: nat, k: nat)
    requires IsNumber(order, t, j, k)
    ensures j < |Program(order, t)| && order[k].ctx == Program(order, t)[j]
  {
    assert order == order[..k] + ([order[k]] + order[k + 1..]);
    ProgramConcat(order[..k], [order[k]] + order[k + 1..], t);
    ProgramConcat([order[k]], order[k + 1..], t);
    assert [order[k]][..0] == [];
    assert Program([order[k]], t) == [order[k].ctx];
  }

  /** All calls are thread `t`'s. */
  predicate AllBy(order: seq<Task>, t: nat) {
    forall k | 0 <= k < |order| :: order[k].t == t
  }

  /** If all calls are of one thread, they have their numbers in program order. */
  lemma {:induction false} SoleProgramNumbers(order: seq<Task>, t: nat)
    requires AllBy(order, t)
    ensures |Program(order, t)| == |order|
  {
    if order != [] {
      SoleProgramNumbers(order[..|order| - 1], t);
    }
  }

  /** A thread that makes a call has it in its program. */
  lemma TaskInProgram(order: seq<Task>, k: nat)
    requires k < |order|
    ensures Program(order, order[k].t) != []
  {
    NumberedCall(order, order[k].t, |Program(order[..k], order[k].t)|, k);
  }

  // ---------------------------------------------------------------- calls of a run

  /** From `s` to `e`, the calls of these tasks have started, number by number. */
  ghost predicate HasStarted(s: Engine, e: Engine, tasks: seq<Task>) {
    && |e.calls| == |s.calls| + |tasks|
    && forall k | 0 <= k < |tasks| :: e.calls[|s.calls| + k].ctx == tasks[k].ctx
  }

  lemma StepStarts(cfg: Config, s: Engine, step: Step)
    requires Enabled(s, step)
    ensures HasStarted(s, Apply(cfg, s, step), StartOf(step))
  {
  }

  lemma StartsAddUp(s: Engine, mid: Engine, e: Engine, first: seq<Task>, rest: seq<Task>)
    requires HasStarted(s, mid, first) && HasStarted(mid, e, rest) && Settled(mid, e)
    ensures HasStarted(s, e, first + rest)
  {
    forall k | 0 <= k < |first + rest| ensures e.calls[|s.calls| + k].ctx == (first + rest)[k].ctx {
      if k >= |first| {
        assert e.calls[|mid.calls| + (k - |first|)].ctx == rest[k - |first|].ctx;
      }
    }
  }

  /** The calls of a run are its starts, number by number. */
  lemma {:induction false} RunNumbersCalls(cfg: Config, s: Engine, steps: seq<Step>)
    requires Inv(cfg, s) && CanRun(cfg, s, steps)
    ensures HasStarted(s, Run(cfg, s, steps), Starts(steps))
    decreases |steps|
  {
    if steps != [] {
      var next, end := Apply(cfg, s, steps[0]), Run(cfg, s, steps);
      StepKeepsInv(cfg, s, steps[0]);
      StepStarts(cfg, s, steps[0]);
      RunNumbersCalls(cfg, next, steps[1..]);
      RunSettles(cfg, next, steps[1..]);
      StartsAddUp(s, next, end, StartOf(steps[0]), Starts(steps[1..]));
    }
  }

  lemma {:induction false} StartsHaveThreads(cfg: Config, s: Engine, steps: seq<Step>)
    requires CanRun(cfg, s, steps)
    ensures |Run(cfg, s, steps).pcs| == |s.pcs|
    ensures forall k | 0 <= k < |Starts(steps)| :: Starts(steps)[k].t < |s.pcs|
    decreases |steps|
  {
    if steps != [] {
      StepChangesOwnCall(cfg, s, steps[0]);
      StartsHaveThreads(cfg, Apply(cfg, s, steps[0]), steps[1..]);
    }
  }

  // ---------------------------------------------------------------- runs in a given order

  function Tasks(t: nat, prog: seq<OpContext>): (tasks: seq<Task>)
    ensures |tasks| == |prog|
  {
    seq(|prog|, (i: nat) requires i < |prog| => Task(t, prog[i]))
  }

  lemma {:induction false} ProgramOfTasks(t: nat, prog: seq<OpContext>, u: nat)
    ensures Program(Tasks(t, prog), u) == if t == u then prog else []
  {
    if prog != [] {
      var init := prog[..|prog| - 1];
      ProgramOfTasks(t, init, u);
      assert Tasks(t, prog)[..|init|] == Tasks(t, init);
      assert prog == init + [prog[|init|]];
    }
  }

  /** All programs, one thread after the other. */
  function ThreadByThread(progs: seq<seq<OpContext>>): seq<Task> {
    if progs == [] then []
    else ThreadByThread(progs[..|progs| - 1]) + Tasks(|progs| - 1, progs[|progs| - 1])
  }

  lemma {:induction false} ProgramOfThread(progs: seq<seq<OpContext>>, u: nat)
    ensures Program(ThreadByThread(progs), u) == if u < |progs| then progs[u] else []
  {
    if progs != [] {
      var init, last := progs[..|progs| - 1], |progs| - 1;
      ProgramOfThread(init, u);
      ProgramOfTasks(last, progs[last], u);
      ProgramConcat(ThreadByThread(init), Tasks(last, progs[last]), u);
    }
  }

  lemma {:induction false} ThreadsInRange(progs: seq<seq<OpContext>>)
    ensures forall k | 0 <= k < |ThreadByThread(progs)| :: ThreadByThread(progs)[k].t < |progs|
  {
    if progs != [] {
      ThreadsInRange(progs[..|progs| - 1]);
    }
  }

  /** The programs in the order: `first`, then all of thread `t`'s, then what is left of the others. */
  function InOrder(first: seq<Task>, t: nat, prog: seq<OpContext>, left: seq<seq<OpContext>>): seq<Task> {
    first + (Tasks(t, prog) + ThreadByThread(left))
  }

  lemma ProgramInOrder(first: seq<Task>, t: nat, prog: seq<OpContext>, left: seq<seq<OpContext>>, u: nat)
    requires u < |left|
    ensures Program(InOrder(first, t, prog, left), u) == Program(first, u) + ((if t == u then prog else []) + left[u])
  {
    ProgramConcat(first, Tasks(t, prog) + ThreadByThread(left), u);
    ProgramConcat(Tasks(t, prog), ThreadByThread(left), u);
    ProgramOfTasks(t, prog, u);
    ProgramOfThread(left, u);
  }

  /** In such an order, thread `t`'s call `j` comes after `first` and `j` calls of its own. */
  lemma NumberInOrder(first: seq<Task>, t: nat, prog: seq<OpContext>, left: seq<seq<OpContext>>, j: nat)
    requires j < |prog| && Program(first, t) == []
    ensures IsNumber(InOrder(first, t, prog, left), t, j, |first| + j)
    ensures InOrder(first, t, prog, left)[|first| + j] == Task(t, prog[j])
  {
    var order := InOrder(first, t, prog, left);
    assert order[..|first| + j] == first + Tasks(t, prog[..j]);
    ProgramConcat(first, Tasks(t, prog[..j]), t);
    ProgramOfTasks(t, prog[..j], t);
  }

  /** The order is possible for `n` threads. */
  predicate Threads(order: seq<Task>, n: nat) {
    forall k | 0 <= k < |order| :: order[k].t < n
  }

  /** Every order of the calls of a workload that keeps the programs is that of some run, in which all
      calls of operations with slots are served. */
  lemma OrderIsPossible(cfg: Config, progs: seq<seq<OpContext>>, order: seq<Task>) returns (steps: seq<Step>)
    requires Threads(order, |progs|) && forall t: nat | t < |progs| :: Program(order, t) == progs[t]
    ensures Performs(cfg, progs, 0.0, steps) && Starts(steps) == order
    ensures Inv(cfg, Run(cfg, Init(cfg, |progs|, 0.0), steps))
    ensures HasRun(cfg, Run(cfg, Init(cfg, |progs|, 0.0), steps), order)
  {
    var s;
    steps, s := OneByOne(cfg, |progs|, order);
  }

  /** The whole workload, thread `t` first. */
  function Alone(progs: seq<seq<OpContext>>, t: nat): seq<Task>
    requires t < |progs|
  {
    InOrder([], t, progs[t], progs[t := []])
  }

  /** The same, but after one call of thread `u`. */
  function OneAhead(progs: seq<seq<OpContext>>, t: nat, u: nat): seq<Task>
    requires t < |progs| && u < |progs| && t != u && progs[u] != []
  {
    InOrder([Task(u, progs[u][0])], t, progs[t], progs[t := []][u := progs[u][1..]])
  }

  lemma InOrderThreads(first: seq<Task>, t: nat, prog: seq<OpContext>, left: seq<seq<OpContext>>)
    requires Threads(first, |left|) && t < |left|
    ensures Threads(InOrder(first, t, prog, left), |left|)
  {
    ThreadsInRange(left);
  }

  lemma AloneIsOrder(progs: seq<seq<OpContext>>, t: nat)
    requires t < |progs|
    ensures Threads(Alone(progs, t), |progs|)
    ensures forall v: nat | v < |progs| :: Program(Alone(progs, t), v) == progs[v]
  {
    InOrderThreads([], t, progs[t], progs[t := []]);
    forall v: nat | v < |progs| ensures Program(Alone(progs, t), v) == progs[v] {
      ProgramInOrder([], t, progs[t], progs[t := []], v);
    }
  }

  lemma FirstProgram(u: nat, ctx: OpContext, v: nat)
    ensures Program([Task(u, ctx)], v) == if u == v then [ctx] else []
  {
    assert [Task(u, ctx)][..0] == [];
  }

  lemma Pieces<T>(p: seq<T>)
    ensures [] + (p + []) == p && [] + ([] + p) == p && (p != [] ==> [p[0]] + ([] + p[1..]) == p)
  {
  }

  lemma OneAheadProgram(progs: seq<seq<OpContext>>, t: nat, u: nat, v: nat)
    requires t < |progs| && u < |progs| && t != u && progs[u] != [] && v < |progs|
    ensures Program(OneAhead(progs, t, u), v) == progs[v]
  {
    var first, left := [Task(u, progs[u][0])], progs[t := []][u := progs[u][1..]];
    calc {
      Program(OneAhead(progs, t, u), v);
    == { ProgramInOrder(first, t, progs[t], left, v); }
      Program(first, v) + ((if t == v then progs[t] else []) + left[v]);
    == { FirstProgram(u, progs[u][0], v); }
      (if u == v then [progs[u][0]] else []) + ((if t == v then progs[t] else []) + left[v]);
    == { Pieces(progs[v]); }
      progs[v];
    }
  }

  lemma OneAheadIsOrder(progs: seq<seq<OpContext>>, t: nat, u: nat)
    requires t < |progs| && u < |progs| && t != u && progs[u] != []
    ensures Threads(OneAhead(progs, t, u), |progs|)
    ensures forall v: nat | v < |progs| :: Program(OneAhead(progs, t, u), v) == progs[v]
  {
    InOrderThreads([Task(u, progs[u][0])], t, progs[t], progs[t := []][u := progs[u][1..]]);
    forall v: nat | v < |progs| ensures Program(OneAhead(progs, t, u), v) == progs[v] {
      OneAheadProgram(progs, t, u, v);
    }
  }

  // ---------------------------------------------------------------- numbers

  /** Two performances of one workload in which thread `t`'s call `j` has the numbers `j` and `j + 1`. */
  lemma NumberMoves(cfg: Config, progs: seq<seq<OpContext>>, t: nat, u: nat, j: nat)
    returns (a: seq<Step>, b: seq<Step>)
    requires t < |progs| && u < |progs| && t != u && progs[u] != [] && j < |progs[t]|
    ensures Performs(cfg, progs, 0.0, a) && Performs(cfg, progs, 0.0, b)
    ensures IsNumber(Starts(a), t, j, j) && IsNumber(Starts(b), t, j, j + 1)
    ensures Starts(a)[j].ctx == progs[t][j] == Starts(b)[j + 1].ctx
    ensures Inv(cfg, Run(cfg, Init(cfg, |progs|, 0.0), a)) && Inv(cfg, Run(cfg, Init(cfg, |progs|, 0.0), b))
    ensures HasRun(cfg, Run(cfg, Init(cfg, |progs|, 0.0), a), Starts(a))
    ensures HasRun(cfg, Run(cfg, Init(cfg, |progs|, 0.0), b), Starts(b))
  {
    a := NumberAlone(cfg, progs, t, j);
    b := NumberBehind(cfg, progs, t, u, j);
  }

  lemma NumberAlone(cfg: Config, progs: seq<seq<OpContext>>, t: nat, j: nat) returns (a: seq<Step>)
    requires t < |progs| && j < |progs[t]|
    ensures Performs(cfg, progs, 0.0, a) && IsNumber(Starts(a), t, j, j) && Starts(a)[j].ctx == progs[t][j]
    ensures Inv(cfg, Run(cfg, Init(cfg, |progs|, 0.0), a))
    ensures HasRun(cfg, Run(cfg, Init(cfg, |progs|, 0.0), a), Starts(a))
  {
    AloneIsOrder(progs, t);
    a := OrderIsPossible(cfg, progs, Alone(progs, t));
    NumberInOrder([], t, progs[t], progs[t := []], j);
  }

  lemma NumberBehind(cfg: Config, progs: seq<seq<OpContext>>, t: nat, u: nat, j: nat) returns (b: seq<Step>)
    requires t < |progs| && u < |progs| && t != u && progs[u] != [] && j < |progs[t]|
    ensures Performs(cfg, progs, 0.0, b) && IsNumber(Starts(b), t, j, j + 1) && Starts(b)[j + 1].ctx == progs[t][j]
    ensures Inv(cfg, Run(cfg, Init(cfg, |progs|, 0.0), b))
    ensures HasRun(cfg, Run(cfg, Init(cfg, |progs|, 0.0), b), Starts(b))
  {
    OneAheadIsOrder(progs, t, u);
    NumberOneAhead(progs, t, u, j);
    b := OrderIsPossible(cfg, progs, OneAhead(progs, t, u));
  }

  lemma NumberOneAhead(progs: seq<seq<OpContext>>, t: nat, u: nat, j: nat)
    requires t < |progs| && u < |progs| && t != u && progs[u] != [] && j < |progs[t]|
    ensures IsNumber(OneAhead(progs, t, u), t, j, j + 1)
    ensures OneAhead(progs, t, u)[j + 1].ctx == progs[t][j]
  {
    FirstProgram(u, progs[u][0], t);
    NumberInOrder([Task(u, progs[u][0])], t, progs[t], progs[t := []][u := progs[u][1..]], j);
  }

  /** If only one thread has calls, each has the number that its place in the program says. */
  lemma SoleNumbers(cfg: Config, progs: seq<seq<OpContext>>, now: real, steps: seq<Step>, t: nat, j: nat, k: nat)
    requires OneProgram(progs) && Performs(cfg, progs, now, steps) && IsNumber(Starts(steps), t, j, k)
    ensures j == k && t < |progs| && AllBy(Starts(steps), t)
  {
    var order := Starts(steps);
    StartsHaveThreads(cfg, Init(cfg, |progs|, now), steps);
    TaskInProgram(order, k);
    forall i | 0 <= i < |order| ensures order[i].t == t {
      TaskInProgram(order, i);
    }
    SoleProgramNumbers(order[..k], t);
  }

  /** The calls of a workload have the same numbers in every schedule if and only if at most one thread
      has anything to do. */
  lemma NumbersFixedIff(cfg: Config, progs: seq<seq<OpContext>>)
    ensures NumbersFixed(cfg, progs) <==> OneProgram(progs)
  {
    if OneProgram(progs) {
      forall now1, a, now2, b, t, j, k1, k2 | Performs(cfg, progs, now1, a) && Performs(cfg, progs, now2, b)
                                              && IsNumber(Starts(a), t, j, k1) && IsNumber(Starts(b), t, j, k2)
        ensures k1 == k2
      {
        SoleNumbers(cfg, progs, now1, a, t, j, k1);
        SoleNumbers(cfg, progs, now2, b, t, j, k2);
      }
    } else {
      var t: nat, u: nat :| t < |progs| && u < |progs| && progs[t] != [] && progs[u] != [] && t != u;
      var a, b := NumberMoves(cfg, progs, t, u, 0);
      assert !Alike(Starts(a), Starts(b));
    }
  }
}
