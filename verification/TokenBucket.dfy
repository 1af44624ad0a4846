/**
 The token bucket on values: tokens and times are real numbers (seconds, bytes).
 A reservation may take the balance below zero; the caller then waits off the debt.
 */
module TokenBucket {

  const U64_MAX: nat := 0xFFFF_FFFF_FFFF_FFFF

  datatype Profile = Profile(rate: real, burst: nat)

  datatype Bucket = Bucket(tokens: real, last: real, totalBytes: nat, throttled: nat)

  function Min(a: real, b: real): real {
    if a <= b then a else b
  }

  function SaturatingAdd(a: nat, b: nat): nat {
    if a + b <= U64_MAX then a + b else U64_MAX
  }

  function New(p: Profile, now: real): Bucket {
    Bucket(p.burst as real, now, 0, 0)
  }

  /** An instant that is not after `last` counts as no time elapsed. */
  function Refill(p: Profile, b: Bucket, now: real): Bucket {
    if now <= b.last then b
    else if p.rate > 0.0 then b.(tokens := Min(b.tokens + (now - b.last) * p.rate, p.burst as real), last := now)
    else b.(last := now)
  }

  /** Subtracting the bytes of one reservation from a refilled bucket. */
  function Take(p: Profile, b: Bucket, bytes: nat): Bucket {
    var left := b.tokens - bytes as real;
    b.(tokens := left, throttled := if left >= 0.0 then b.throttled else b.throttled + 1)
  }

  function WaitFor(p: Profile, tokens: real): real
    requires p.rate > 0.0
  {
    if tokens >= 0.0 then 0.0 else -tokens / p.rate
  }

  function Reserve(p: Profile, b: Bucket, bytes: nat, now: real): (Bucket, real) {
    if bytes == 0 then (b, 0.0)
    else
      var c := b.(totalBytes := SaturatingAdd(b.totalBytes, bytes));
      if p.rate <= 0.0 then (c, 0.0)
      else
        var d := Take(p, Refill(p, c, now), bytes);
        (d, WaitFor(p, d.tokens))
  }

  // ---------------------------------------------------------------- histories

  datatype Request = Request(at: real, bytes: nat)

  /** The bucket after a history of reservations. */
  function Replay(p: Profile, start: real, log: seq<Request>): Bucket {
    if log == [] then New(p, start)
    else
      var r := log[|log| - 1];
      Reserve(p, Replay(p, start, log[..|log| - 1]), r.bytes, r.at).0
  }

  function LastAt(start: real, log: seq<Request>): real {
    if log == [] then start else log[|log| - 1].at
  }

  /** Positive reservations at times that never go back. */
  predicate Proper(start: real, log: seq<Request>) {
    log != [] ==>
      var init, r := log[..|log| - 1], log[|log| - 1];
      Proper(start, init) && r.bytes > 0 && LastAt(start, init) <= r.at
  }

  /** Bytes reserved from request `i` on. */
  function BytesFrom(log: seq<Request>, i: nat): nat
    requires i <= |log|
    decreases |log|
  {
    if i == |log| then 0 else BytesFrom(log[..|log| - 1], i) + log[|log| - 1].bytes
  }

  function Earned(p: Profile, time: real): real {
    time * p.rate
  }

  /** What the burst and the refill since request `i` leave of request `i` and all later ones at `now`. */
  function Headroom(p: Profile, log: seq<Request>, i: nat, now: real): real
    requires i < |log|
  {
    p.burst as real + Earned(p, now - log[i].at) - BytesFrom(log, i) as real
  }

  lemma EarnedAdds(p: Profile, a: real, b: real)
    ensures Earned(p, a + b) == Earned(p, a) + Earned(p, b)
  {
  }

  lemma {:induction false} ReplayFacts(p: Profile, start: real, log: seq<Request>)
    requires p.rate > 0.0 && Proper(start, log)
    ensures Replay(p, start, log).last == LastAt(start, log)
    ensures Replay(p, start, log).tokens <= p.burst as real
  {
    if log != [] {
      ReplayFacts(p, start, log[..|log| - 1]);
    }
  }

  lemma RefillBalance(p: Profile, b: Bucket, now: real)
    requires p.rate > 0.0 && b.last <= now && b.tokens <= p.burst as real
    ensures Refill(p, b, now) == b.(tokens := Min(b.tokens + Earned(p, now - b.last), p.burst as real), last := now)
  {
    if now == b.last {
      assert Earned(p, 0.0) == 0.0;
    } else {
      assert Earned(p, now - b.last) == (now - b.last) * p.rate;
    }
  }

  /** The balance one reservation later, as a minimum of two lines. */
  lemma ReserveBalance(p: Profile, b: Bucket, bytes: nat, now: real)
    requires p.rate > 0.0 && bytes > 0 && b.last <= now && b.tokens <= p.burst as real
    ensures Reserve(p, b, bytes, now).0.tokens ==
            Min(b.tokens + Earned(p, now - b.last), p.burst as real) - bytes as real
    ensures Reserve(p, b, bytes, now).0.last == now
  {
    RefillBalance(p, b.(totalBytes := SaturatingAdd(b.totalBytes, bytes)), now);
  }

  /** `tokens` is the least headroom at `now` over all starting requests, attained at `tight`. */
  ghost predicate IsLeastHeadroom(p: Profile, log: seq<Request>, now: real, tokens: real, tight: nat) {
    && tight < |log|
    && tokens == Headroom(p, log, tight, now)
    && forall i: nat | i < |log| :: tokens <= Headroom(p, log, i, now)
  }

  lemma HeadroomStep(p: Profile, log: seq<Request>, r: Request, i: nat)
    requires i < |log|
    ensures
      var last := log[|log| - 1].at;
      Headroom(p, log + [r], i, r.at) == Headroom(p, log, i, last) + Earned(p, r.at - last) - r.bytes as real
  {
    assert (log + [r])[..|log|] == log;
    var last := log[|log| - 1].at;
    EarnedAdds(p, last - log[i].at, r.at - last);
  }

  lemma HeadroomOfLast(p: Profile, log: seq<Request>, r: Request)
    ensures Headroom(p, log + [r], |log|, r.at) == p.burst as real - r.bytes as real
  {
    assert (log + [r])[..|log|] == log;
    assert BytesFrom(log, |log|) == 0;
  }

  /** The closed form: after any history the balance is the least headroom over all starting requests. */
  lemma {:induction false} ClosedForm(p: Profile, start: real, log: seq<Request>) returns (tight: nat)
    requires p.rate > 0.0 && log != [] && Proper(start, log)
    ensures IsLeastHeadroom(p, log, LastAt(start, log), Replay(p, start, log).tokens, tight)
  {
    var n := |log| - 1;
    var init, r := log[..n], log[n];
    assert log == init + [r];
    var b, c := Replay(p, start, init), Replay(p, start, log);
    ReplayFacts(p, start, init);
    ReserveBalance(p, b, r.bytes, r.at);
    HeadroomOfLast(p, init, r);
    tight := n;
    if init != [] {
      var k := ClosedForm(p, start, init);
      forall i: nat | i < n
        ensures Headroom(p, log, i, r.at) ==
                Headroom(p, init, i, init[n - 1].at) + Earned(p, r.at - b.last) - r.bytes as real
      {
        HeadroomStep(p, init, r, i);
      }
      if c.tokens != Headroom(p, log, n, r.at) {
        tight := k;
      }
    } else {
      assert Earned(p, r.at - b.last) >= 0.0;
    }
  }

  // ---------------------------------------------------------------- waits

  lemma DivBound(a: real, r: real, w: real)
    requires r > 0.0
    ensures a / r <= w <==> a <= w * r
    ensures a / r * r == a
  {
    var q := a / r;
    assert q * r == a;
    if q <= w {
      assert (w - q) * r >= 0.0;
    } else {
      assert (q - w) * r > 0.0;
    }
  }

  /** Until `until`, the burst and the refill cover, from every starting request on, all bytes of the history. */
  ghost predicate Covered(p: Profile, log: seq<Request>, until: real) {
    forall i: nat | i < |log| :: BytesFrom(log, i) as real <= p.burst as real + Earned(p, until - log[i].at)
  }

  lemma WaitPaysDebt(p: Profile, tokens: real)
    requires p.rate > 0.0
    ensures WaitFor(p, tokens) >= 0.0
    ensures Earned(p, WaitFor(p, tokens)) == if tokens >= 0.0 then 0.0 else -tokens
  {
    DivBound(-tokens, p.rate, 0.0);
  }

  lemma EarnedOrder(p: Profile, a: real, b: real)
    requires p.rate > 0.0
    ensures Earned(p, a) <= Earned(p, b) <==> a <= b
  {
    EarnedAdds(p, a, b - a);
    if a <= b {
      assert Earned(p, b - a) >= 0.0;
    } else {
      assert Earned(p, b - a) < 0.0;
    }
  }

  lemma WaitSuffices(p: Profile, tokens: real, w: real)
    requires p.rate > 0.0 && w >= 0.0
    ensures WaitFor(p, tokens) <= w <==> tokens + Earned(p, w) >= 0.0
  {
    WaitPaysDebt(p, tokens);
    EarnedOrder(p, WaitFor(p, tokens), w);
    EarnedOrder(p, 0.0, w);
  }

  lemma HeadroomLater(p: Profile, log: seq<Request>, i: nat, now: real, w: real)
    requires i < |log|
    ensures Headroom(p, log, i, now + w) == Headroom(p, log, i, now) + Earned(p, w)
  {
    EarnedAdds(p, now - log[i].at, w);
  }

  lemma CoveredWhenTightIs(p: Profile, log: seq<Request>, now: real, w: real, tokens: real, tight: nat)
    requires IsLeastHeadroom(p, log, now, tokens, tight)
    ensures Covered(p, log, now + w) <==> tokens + Earned(p, w) >= 0.0
  {
    var until := now + w;
    forall i: nat | i < |log|
      ensures Headroom(p, log, i, until) >= tokens + Earned(p, w)
      ensures Headroom(p, log, i, until) >= 0.0 <==>
              BytesFrom(log, i) as real <= p.burst as real + Earned(p, until - log[i].at)
    {
      HeadroomLater(p, log, i, now, w);
    }
    HeadroomLater(p, log, tight, now, w);
    if Covered(p, log, until) {
      assert BytesFrom(log, tight) as real <= p.burst as real + Earned(p, until - log[tight].at);
    }
  }

  /** The returned wait is exactly the least non-negative wait after which the bytes are covered. */
  lemma LeastWait(p: Profile, start: real, log: seq<Request>, r: Request, w: real)
    requires p.rate > 0.0 && Proper(start, log + [r]) && w >= 0.0
    ensures
      var wait := Reserve(p, Replay(p, start, log), r.bytes, r.at).1;
      wait >= 0.0 && (Covered(p, log + [r], r.at + w) <==> wait <= w)
  {
    var all := log + [r];
    assert all[..|log|] == log;
    var tight := ClosedForm(p, start, all);
    var tokens := Replay(p, start, all).tokens;
    CoveredWhenTightIs(p, all, r.at, w, tokens, tight);
    WaitSuffices(p, tokens, w);
    WaitPaysDebt(p, tokens);
  }

  // ---------------------------------------------------------------- totals

  /** How many requests are not covered at the time of their arrival, that is, have to wait. */
  ghost function LateRequests(p: Profile, log: seq<Request>): nat {
    if log == [] then 0
    else
      var last := log[|log| - 1];
      LateRequests(p, log[..|log| - 1]) + if Covered(p, log, last.at) then 0 else 1
  }

  /** The throttle count is the number of requests that had to wait. */
  lemma {:induction false} ThrottledAreLate(p: Profile, start: real, log: seq<Request>)
    requires p.rate > 0.0 && Proper(start, log)
    ensures Replay(p, start, log).throttled == LateRequests(p, log)
  {
    if log != [] {
      var init, last := log[..|log| - 1], log[|log| - 1];
      ThrottledAreLate(p, start, init);
      assert init + [last] == log;
      ReserveCounts(p, Replay(p, start, init), last.bytes, last.at);
      LeastWait(p, start, init, last, 0.0);
    }
  }

  /** A reservation counts as throttled exactly if it has to wait, and its bytes count up to 2^64 - 1. */
  lemma ReserveCounts(p: Profile, b: Bucket, bytes: nat, now: real)
    ensures
      var (c, wait) := Reserve(p, b, bytes, now);
      && c.throttled == b.throttled + (if wait > 0.0 then 1 else 0)
      && (if bytes == 0 then c == b else c.totalBytes == SaturatingAdd(b.totalBytes, bytes))
      && (p.rate <= 0.0 ==> wait == 0.0)
  {
    if bytes > 0 && p.rate > 0.0 {
      WaitSuffices(p, Reserve(p, b, bytes, now).0.tokens, 0.0);
      assert Earned(p, 0.0) == 0.0;
    }
  }

  lemma {:induction false} NeverThrottled(p: Profile, start: real, log: seq<Request>)
    requires p.rate <= 0.0
    ensures Replay(p, start, log).throttled == 0
  {
    if log != [] {
      var last := log[|log| - 1];
      NeverThrottled(p, start, log[..|log| - 1]);
      ReserveCounts(p, Replay(p, start, log[..|log| - 1]), last.bytes, last.at);
    }
  }

  /** The total is that of all bytes reserved, as far as 64 bits reach. */
  lemma {:induction false} TotalIsSum(p: Profile, start: real, log: seq<Request>)
    ensures Replay(p, start, log).totalBytes ==
            if BytesFrom(log, 0) < 0x1_0000_0000_0000_0000 then BytesFrom(log, 0) else 0xFFFF_FFFF_FFFF_FFFF
  {
    if log != [] {
      var last := log[|log| - 1];
      TotalIsSum(p, start, log[..|log| - 1]);
      ReserveCounts(p, Replay(p, start, log[..|log| - 1]), last.bytes, last.at);
    }
  }

  // ---------------------------------------------------------------- completions

  /** The balance right after request `k`. */
  function BalanceAt(p: Profile, start: real, log: seq<Request>, k: nat): real
    requires k < |log|
  {
    Replay(p, start, log[..k + 1]).tokens
  }

  /** When the caller of request `k` may proceed. */
  function Completion(p: Profile, start: real, log: seq<Request>, k: nat): real
    requires k < |log| && p.rate > 0.0
  {
    log[k].at + WaitFor(p, BalanceAt(p, start, log, k))
  }

  lemma {:induction false} ProperPrefix(start: real, log: seq<Request>, k: nat)
    requires Proper(start, log) && k <= |log|
    ensures Proper(start, log[..k])
  {
    if k < |log| {
      ProperPrefix(start, log[..|log| - 1], k);
      assert log[..|log| - 1][..k] == log[..k];
    } else {
      assert log[..k] == log;
    }
  }

  /** The same for a request in the middle of a history. */
  lemma LeastWaitInside(p: Profile, start: real, log: seq<Request>, k: nat, w: real)
    requires p.rate > 0.0 && Proper(start, log) && k < |log| && w >= 0.0
    ensures
      var wait := Reserve(p, Replay(p, start, log[..k]), log[k].bytes, log[k].at).1;
      Covered(p, log[..k + 1], log[k].at + w) <==> wait <= w
  {
    ProperPrefix(start, log, k + 1);
    assert log[..k + 1] == log[..k] + [log[k]];
    LeastWait(p, start, log[..k], log[k], w);
  }

  lemma ReplayStep(p: Profile, start: real, log: seq<Request>, k: nat)
    requires k < |log|
    ensures Replay(p, start, log[..k + 1]) == Reserve(p, Replay(p, start, log[..k]), log[k].bytes, log[k].at).0
  {
    assert log[..k + 1][..k] == log[..k];
  }

  lemma ProperStep(start: real, log: seq<Request>, k: nat)
    requires Proper(start, log) && k < |log|
    ensures Proper(start, log[..k]) && LastAt(start, log[..k]) <= log[k].at && log[k].bytes > 0
  {
    ProperPrefix(start, log, k + 1);
    assert log[..k + 1][..k] == log[..k];
  }

  /** Request `k` reserves on the bucket left by its predecessors. */
  lemma RequestStep(p: Profile, start: real, log: seq<Request>, k: nat)
    requires p.rate > 0.0 && Proper(start, log) && k < |log|
    ensures
      var b := Replay(p, start, log[..k]);
      && b.tokens <= p.burst as real && b.last == LastAt(start, log[..k]) <= log[k].at && log[k].bytes > 0
      && BalanceAt(p, start, log, k) ==
         Min(b.tokens + Earned(p, log[k].at - b.last), p.burst as real) - log[k].bytes as real
  {
    ReplayStep(p, start, log, k);
    ProperStep(start, log, k);
    ReplayFacts(p, start, log[..k]);
    ReserveBalance(p, Replay(p, start, log[..k]), log[k].bytes, log[k].at);
  }

  /** Bytes reserved after request `i`, up to and including request `j`. */
  function BytesAfter(log: seq<Request>, i: nat, j: nat): nat
    requires i <= j < |log|
  {
    BytesFrom(log[..j + 1], i + 1)
  }

  lemma {:induction false} BalanceDecay(p: Profile, start: real, log: seq<Request>, i: nat, j: nat)
    requires p.rate > 0.0 && Proper(start, log) && i <= j < |log|
    ensures BalanceAt(p, start, log, j) <=
            BalanceAt(p, start, log, i) + Earned(p, log[j].at - log[i].at) - BytesAfter(log, i, j) as real
    ensures log[i].at <= log[j].at
    decreases j
  {
    if i == j {
      assert BytesAfter(log, i, j) == 0;
    } else {
      BalanceDecay(p, start, log, i, j - 1);
      RequestStep(p, start, log, j);
      EarnedAdds(p, log[j - 1].at - log[i].at, log[j].at - log[j - 1].at);
      assert log[..j + 1][..j] == log[..j];
    }
  }

  /** Two requests a `span` apart, with balances `bi` and `bj`: how their completions relate. */
  lemma TwoCompletions(p: Profile, bi: real, bj: real, span: real, bytes: real)
    requires p.rate > 0.0 && span >= 0.0 && bytes >= 0.0
    requires bi <= p.burst as real && bj <= bi + Earned(p, span) - bytes
    ensures
      var gap := span + WaitFor(p, bj) - WaitFor(p, bi);
      gap >= 0.0 && bytes <= p.burst as real + Earned(p, gap)
  {
    var wi, wj := WaitFor(p, bi), WaitFor(p, bj);
    WaitPaysDebt(p, bi);
    WaitPaysDebt(p, bj);
    EarnedAdds(p, span, wj);
    EarnedAdds(p, wi, span + wj - wi);
    EarnedOrder(p, wi, span + wj);
    EarnedOrder(p, 0.0, span);
  }

  /** Between two completions never more bytes pass than the burst and the refill allow,
      and callers may proceed in the order in which they reserved. */
  lemma WindowBound(p: Profile, start: real, log: seq<Request>, i: nat, j: nat)
    requires p.rate > 0.0 && Proper(start, log) && i <= j < |log|
    ensures
      var ci, cj := Completion(p, start, log, i), Completion(p, start, log, j);
      && ci <= cj
      && BytesAfter(log, i, j) as real <= p.burst as real + Earned(p, cj - ci)
  {
    BalanceDecay(p, start, log, i, j);
    RequestStep(p, start, log, i);
    TwoCompletions(p, BalanceAt(p, start, log, i), BalanceAt(p, start, log, j),
                   log[j].at - log[i].at, BytesAfter(log, i, j) as real);
  }

  /** A bucket in debt after `span` serves the next bytes right behind the earlier ones. */
  lemma BackToBack(p: Profile, before: real, span: real, bytes: real)
    requires p.rate > 0.0 && span >= 0.0 && bytes >= 0.0
    requires before + Earned(p, span) < 0.0
    ensures span + WaitFor(p, before + Earned(p, span) - bytes) == WaitFor(p, before) + bytes / p.rate
  {
    var w0, w1, x := WaitFor(p, before), WaitFor(p, before + Earned(p, span) - bytes), bytes / p.rate;
    EarnedOrder(p, 0.0, span);
    WaitPaysDebt(p, before);
    WaitPaysDebt(p, before + Earned(p, span) - bytes);
    DivBound(bytes, p.rate, 0.0);
    EarnedAdds(p, w0, x);
    EarnedAdds(p, span, w1);
    EarnedOrder(p, span + w1, w0 + x);
    EarnedOrder(p, w0 + x, span + w1);
  }

  /** The balance that request `j` finds, and what it leaves of it. */
  lemma FoundAndLeft(p: Profile, start: real, log: seq<Request>, j: nat)
    requires p.rate > 0.0 && Proper(start, log) && j < |log|
    ensures
      var b := Replay(p, start, log[..j]);
      var found := Refill(p, b, log[j].at).tokens;
      && BalanceAt(p, start, log, j) == found - log[j].bytes as real
      && (found < 0.0 ==> j > 0 && found == b.tokens + Earned(p, log[j].at - log[j - 1].at))
      && (j > 0 ==> b.tokens == BalanceAt(p, start, log, j - 1) && log[j - 1].at <= log[j].at)
  {
    RequestStep(p, start, log, j);
    var b := Replay(p, start, log[..j]);
    RefillBalance(p, b, log[j].at);
    if j == 0 {
      EarnedOrder(p, 0.0, log[0].at - start);
      assert b.tokens == p.burst as real;
    } else {
      assert log[..j] == log[..(j - 1) + 1];
    }
  }

  /** When a request proceeds, given the balance it finds on arrival: while that is a debt, exactly
      its own transmission time after its predecessor, otherwise after its own shortfall. */
  lemma CompletionSpacing(p: Profile, start: real, log: seq<Request>, j: nat)
    requires p.rate > 0.0 && Proper(start, log) && j < |log|
    ensures
      var found := Refill(p, Replay(p, start, log[..j]), log[j].at).tokens;
      var c := Completion(p, start, log, j);
      && (found < 0.0 ==> j > 0 && c == Completion(p, start, log, j - 1) + log[j].bytes as real / p.rate)
      && (found >= 0.0 ==> c == log[j].at + WaitFor(p, found - log[j].bytes as real))
  {
    FoundAndLeft(p, start, log, j);
    if Refill(p, Replay(p, start, log[..j]), log[j].at).tokens < 0.0 {
      BackToBack(p, BalanceAt(p, start, log, j - 1), log[j].at - log[j - 1].at, log[j].bytes as real);
    }
  }
}
