/** Weighted sums over sequences: every counter of the models is one of these. */
module Sums {

  function Sum<T>(w: T -> nat, s: seq<T>): nat {
    if s == [] then 0 else Sum(w, s[..|s| - 1]) + w(s[|s| - 1])
  }

  lemma SumAppend<T>(w: T -> nat, s: seq<T>, x: T)
    ensures Sum(w, s + [x]) == Sum(w, s) + w(x)
  {
    assert (s + [x])[..|s|] == s;
  }

  /** Changing one element changes the sum by exactly that element's weight. */
  lemma {:induction false} SumUpdate<T>(w: T -> nat, s: seq<T>, i: nat, x: T)
    requires i < |s|
    ensures Sum(w, s[i := x]) + w(s[i]) == Sum(w, s) + w(x)
  {
    var n := |s| - 1;
    if i == n {
      assert s[i := x][..n] == s[..n];
    } else {
      SumUpdate(w, s[..n], i, x);
      assert s[i := x][..n] == s[..n][i := x];
    }
  }

  lemma {:induction false} SumAtLeast<T>(w: T -> nat, s: seq<T>, i: nat)
    requires i < |s|
    ensures Sum(w, s) >= w(s[i])
  {
    if i < |s| - 1 {
      SumAtLeast(w, s[..|s| - 1], i);
    }
  }

  /** A positive sum has a witness. */
  lemma {:induction false} SumWitness<T>(w: T -> nat, s: seq<T>) returns (i: nat)
    requires Sum(w, s) > 0
    ensures i < |s| && w(s[i]) > 0
  {
    i := |s| - 1;
    if w(s[i]) == 0 {
      i := SumWitness(w, s[..|s| - 1]);
    }
  }

  lemma {:induction false} SumZero<T>(w: T -> nat, s: seq<T>)
    requires forall i | 0 <= i < |s| :: w(s[i]) == 0
    ensures Sum(w, s) == 0
  {
    if s != [] {
      SumZero(w, s[..|s| - 1]);
    }
  }

  lemma {:induction false} SumBound<T>(w: T -> nat, s: seq<T>, c: nat)
    requires forall i | 0 <= i < |s| :: w(s[i]) <= c
    ensures Sum(w, s) <= c * |s|
  {
    if s != [] {
      SumBound(w, s[..|s| - 1], c);
    }
  }

  /** Sequences whose elements weigh the same, position by position, sum up to the same. */
  lemma {:induction false} SumPointwise<S, T>(v: S -> nat, s: seq<S>, w: T -> nat, t: seq<T>)
    requires |s| == |t| && forall i | 0 <= i < |s| :: v(s[i]) == w(t[i])
    ensures Sum(v, s) == Sum(w, t)
  {
    if s != [] {
      SumPointwise(v, s[..|s| - 1], w, t[..|t| - 1]);
    }
  }
}
