/**
 Fault sampling: rules are tried in order, each rule for the sampled operation draws one
 number from the generator, and the first draw below its rule's rate decides.
 The generator is an arbitrary stream of draws in [0, 1).
 */
module FaultSampler {
  import opened Wrappers
  import opened SampleKeys

  datatype FaultRule = FaultRule(op: FsOp, errno: int, rate: real)

  type Draws = nat -> real

  ghost predicate UnitDraws(u: Draws) {
    forall k :: 0.0 <= u(k) < 1.0
  }

  /** The decision when the generator stands at draw `k`. */
  function Sample(rules: seq<FaultRule>, op: FsOp, u: Draws, k: nat): Option<int>
    decreases |rules|
  {
    if rules == [] then None
    else if rules[0].op != op then Sample(rules[1..], op, u, k)
    else if u(k) < rules[0].rate then Some(rules[0].errno)
    else Sample(rules[1..], op, u, k + 1)
  }

  /** How many rules concern the operation, that is, how many draws they may consume. */
  function Matching(rules: seq<FaultRule>, op: FsOp): nat {
    if rules == [] then 0 else (if rules[0].op == op then 1 else 0) + Matching(rules[1..], op)
  }

  /** Rule `i` fires on the draw that its predecessors for the operation leave to it. */
  predicate Fires(rules: seq<FaultRule>, op: FsOp, u: Draws, k: nat, i: nat)
    requires i < |rules|
  {
    rules[i].op == op && u(k + Matching(rules[..i], op)) < rules[i].rate
  }

  lemma {:induction false} FiresInTail(rules: seq<FaultRule>, op: FsOp, u: Draws, k: nat, i: nat)
    requires 0 < i < |rules|
    ensures
      var k' := if rules[0].op == op then k + 1 else k;
      Fires(rules, op, u, k, i) == Fires(rules[1..], op, u, k', i - 1)
  {
    assert rules[..i][1..] == rules[1..][..i - 1];
  }

  /** The decision is the errno of the first rule that fires, and no fault means that none fires. */
  lemma {:induction false} FirstFiringRuleDecides(rules: seq<FaultRule>, op: FsOp, u: Draws, k: nat) returns (i: nat)
    ensures i <= |rules| && forall j: nat | j < i :: !Fires(rules, op, u, k, j)
    ensures i < |rules| ==> Fires(rules, op, u, k, i) && Sample(rules, op, u, k) == Some(rules[i].errno)
    ensures i == |rules| ==> Sample(rules, op, u, k) == None
    decreases |rules|
  {
    if rules == [] || Fires(rules, op, u, k, 0) {
      i := 0;
    } else {
      var i' := FirstFiringRuleDecides(rules[1..], op, u, if rules[0].op == op then k + 1 else k);
      i := i' + 1;
      forall j: nat | 0 < j < |rules|
        ensures Fires(rules, op, u, k, j) == Fires(rules[1..], op, u, if rules[0].op == op then k + 1 else k, j - 1)
      {
        FiresInTail(rules, op, u, k, j);
      }
    }
  }

  /** The loop of `sample_fault`: `next` counts the draws taken from the generator. */
  method SampleFault(rules: seq<FaultRule>, op: FsOp, u: Draws) returns (fault: Option<int>)
    ensures fault == Sample(rules, op, u, 0)
  {
    var next: nat := 0;
    for i := 0 to |rules|
      invariant Sample(rules, op, u, 0) == Sample(rules[i..], op, u, next)
    {
      assert rules[i..][1..] == rules[i + 1..];
      if rules[i].op == op {
        var draw := u(next);
        next := next + 1;
        if draw < rules[i].rate {
          return Some(rules[i].errno);
        }
      }
    }
    return None;
  }

  // ---------------------------------------------------------------- laws

  function OnlyFor(rules: seq<FaultRule>, op: FsOp): seq<FaultRule> {
    if rules == [] then [] else (if rules[0].op == op then [rules[0]] else []) + OnlyFor(rules[1..], op)
  }

  /** Rules for other operations have no influence: they do not even consume a draw. */
  lemma {:induction false} OtherOpsDoNotLeak(rules: seq<FaultRule>, op: FsOp, u: Draws, k: nat)
    ensures Sample(rules, op, u, k) == Sample(OnlyFor(rules, op), op, u, k)
    decreases |rules|
  {
    if rules != [] {
      OtherOpsDoNotLeak(rules[1..], op, u, k);
      OtherOpsDoNotLeak(rules[1..], op, u, k + 1);
      if rules[0].op == op {
        assert OnlyFor(rules, op)[1..] == OnlyFor(rules[1..], op);
      } else {
        assert OnlyFor(rules, op) == OnlyFor(rules[1..], op);
      }
    }
  }

  /** Appended rules are consulted, with the draws that remain, exactly when the first ones miss. */
  lemma {:induction false} AppendedRules(rules: seq<FaultRule>, more: seq<FaultRule>, op: FsOp, u: Draws, k: nat)
    ensures Sample(rules + more, op, u, k) ==
      if Sample(rules, op, u, k).Some? then Sample(rules, op, u, k)
      else Sample(more, op, u, k + Matching(rules, op))
    decreases |rules|
  {
    if rules == [] {
      assert rules + more == more;
    } else {
      assert (rules + more)[1..] == rules[1..] + more;
      AppendedRules(rules[1..], more, op, u, if rules[0].op == op then k + 1 else k);
    }
  }

  ghost predicate RatesRaised(rules: seq<FaultRule>, raised: seq<FaultRule>) {
    |rules| == |raised| && forall i | 0 <= i < |rules| :: rules[i].op == raised[i].op && rules[i].rate <= raised[i].rate
  }

  /** Raising rates never turns a fault into a success. */
  lemma {:induction false} RaisedRatesKeepHits(rules: seq<FaultRule>, raised: seq<FaultRule>, op: FsOp,
                                               u: Draws, k: nat)
    requires RatesRaised(rules, raised) && Sample(rules, op, u, k).Some?
    ensures Sample(raised, op, u, k).Some?
    decreases |rules|
  {
    if rules[0].op != op {
      RaisedRatesKeepHits(rules[1..], raised[1..], op, u, k);
    } else if u(k) >= raised[0].rate {
      RaisedRatesKeepHits(rules[1..], raised[1..], op, u, k + 1);
    }
  }

  /** A rule for the operation with rate 1 guarantees a fault, and rates 0 exclude one. */
  lemma CertainRates(rules: seq<FaultRule>, op: FsOp, u: Draws)
    requires UnitDraws(u)
    ensures (exists r | r in rules :: r.op == op && r.rate >= 1.0) ==> Sample(rules, op, u, 0).Some?
    ensures (forall r | r in rules :: r.op == op ==> r.rate <= 0.0) ==> Sample(rules, op, u, 0) == None
  {
    var i := FirstFiringRuleDecides(rules, op, u, 0);
    if r :| r in rules && r.op == op && r.rate >= 1.0 {
      var j: nat :| j < |rules| && rules[j] == r;
      assert Fires(rules, op, u, 0, j);
    }
    if i < |rules| {
      assert rules[i] in rules && u(Matching(rules[..i], op)) >= 0.0;
    }
  }
}
