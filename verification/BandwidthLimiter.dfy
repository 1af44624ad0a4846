/** Observations cost nothing, and the limiter object that keeps a bucket behind its mutex. */
module BandwidthLimiterObject {
  import opened TokenBucket

  datatype Call = ReserveCall(bytes: nat, now: real) | StatsCall(now: real)

  function Step(p: Profile, b: Bucket, call: Call): Bucket {
    match call
    case ReserveCall(bytes, now) => Reserve(p, b, bytes, now).0
    case StatsCall(now) => Refill(p, b, now)
  }

  function Exec(p: Profile, b: Bucket, calls: seq<Call>): Bucket
    decreases |calls|
  {
    if calls == [] then b else Exec(p, Step(p, b, calls[0]), calls[1..])
  }

  predicate Effective(call: Call) {
    call.ReserveCall? && call.bytes > 0
  }

  /** The waits returned to the calls that reserve something. */
  function Waits(p: Profile, b: Bucket, calls: seq<Call>): seq<real>
    decreases |calls|
  {
    if calls == [] then []
    else
      (if Effective(calls[0]) then [Reserve(p, b, calls[0].bytes, calls[0].now).1] else []) +
      Waits(p, Step(p, b, calls[0]), calls[1..])
  }

  /** The calls without statistics queries and zero-byte reservations. */
  function Strip(calls: seq<Call>): seq<Call> {
    if calls == [] then []
    else (if Effective(calls[0]) then [calls[0]] else []) + Strip(calls[1..])
  }

  predicate Ordered(from: real, calls: seq<Call>)
    decreases |calls|
  {
    calls != [] ==> from <= calls[0].now && Ordered(calls[0].now, calls[1..])
  }

  /** `seen` is what refilling `quiet` up to the time of `seen` gives. */
  predicate Behind(p: Profile, quiet: Bucket, seen: Bucket) {
    quiet.last <= seen.last && Refill(p, quiet, seen.last) == seen
  }

  /** Refilling twice is refilling once. */
  lemma RefillsCompose(p: Profile, b: Bucket, now: real, later: real)
    requires now <= later
    ensures Refill(p, Refill(p, b, now), later) == Refill(p, b, later)
  {
    if p.rate > 0.0 && b.last < now < later {
      EarnedAdds(p, now - b.last, later - now);
      EarnedOrder(p, 0.0, later - now);
    }
  }

  /** A call keeps two such buckets together, and an effective one returns the same wait on both. */
  lemma CallKeepsBehind(p: Profile, quiet: Bucket, seen: Bucket, call: Call)
    requires Behind(p, quiet, seen) && seen.last <= call.now
    ensures Effective(call) ==>
      && Behind(p, Step(p, quiet, call), Step(p, seen, call))
      && Reserve(p, quiet, call.bytes, call.now).1 == Reserve(p, seen, call.bytes, call.now).1
    ensures !Effective(call) ==> Behind(p, quiet, Step(p, seen, call))
    ensures Step(p, seen, call).last <= call.now
  {
    RefillsCompose(p, quiet, seen.last, call.now);
    if Effective(call) && p.rate > 0.0 {
      var total := SaturatingAdd(quiet.totalBytes, call.bytes);
      assert Refill(p, seen.(totalBytes := total), call.now) == Refill(p, quiet.(totalBytes := total), call.now);
    }
  }

  /** Queries and zero-byte reservations anywhere in a run change no wait, and the bucket
      they leave is the undisturbed one, merely refilled up to a later instant. */
  lemma {:induction false} ObservationIsFree(p: Profile, quiet: Bucket, seen: Bucket, now: real, calls: seq<Call>)
    requires Behind(p, quiet, seen) && seen.last <= now && Ordered(now, calls)
    ensures Waits(p, seen, calls) == Waits(p, quiet, Strip(calls))
    ensures Behind(p, Exec(p, quiet, Strip(calls)), Exec(p, seen, calls))
    decreases |calls|
  {
    if calls != [] {
      var call := calls[0];
      CallKeepsBehind(p, quiet, seen, call);
      if Effective(call) {
        ObservationIsFree(p, Step(p, quiet, call), Step(p, seen, call), call.now, calls[1..]);
        assert Strip(calls)[1..] == Strip(calls[1..]);
      } else {
        ObservationIsFree(p, quiet, Step(p, seen, call), call.now, calls[1..]);
        assert Strip(calls) == Strip(calls[1..]);
        assert Waits(p, seen, calls) == Waits(p, Step(p, seen, call), calls[1..]);
      }
    }
  }

  lemma WaitFacts(p: Profile, b: Bucket, bytes: nat, now: real)
    ensures
      var wait := Reserve(p, b, bytes, now).1;
      wait >= 0.0 && (bytes == 0 || p.rate <= 0.0 ==> wait == 0.0)
  {
    if bytes > 0 && p.rate > 0.0 {
      WaitPaysDebt(p, Reserve(p, b, bytes, now).0.tokens);
    }
  }

  class BandwidthLimiter {
    const profile: Profile
    var tokens: real
    var last: real
    var totalBytesReserved: nat
    var totalThrottled: nat
    ghost const start: real
    ghost var clock: real           // the latest instant at which the limiter was called
    ghost var log: seq<Request>     // the positive reservations so far

    ghost function Abs(): Bucket
      reads this
    {
      Bucket(tokens, last, totalBytesReserved, totalThrottled)
    }

    ghost predicate Valid()
      reads this
    {
      && Proper(start, log) && LastAt(start, log) <= clock && last <= clock
      && Behind(profile, Replay(profile, start, log), Abs())
    }

    constructor (profile: Profile, now: real)
      ensures Valid() && this.profile == profile && Abs() == New(profile, now) && log == [] && clock == now
    {
      this.profile := profile;
      tokens, last := profile.burst as real, now;
      totalBytesReserved, totalThrottled := 0, 0;
      start, clock, log := now, now, [];
    }

    /** The wait is the least one after which the burst and the refill cover the whole
        history of reservations, whatever queries came between them. */
    method Reserve(bytes: nat, now: real) returns (wait: real)
      requires Valid() && clock <= now
      modifies this
      ensures Valid() && clock == now
      ensures (Abs(), wait) == TokenBucket.Reserve(profile, old(Abs()), bytes, now)
      ensures log == if bytes == 0 then old(log) else old(log) + [Request(now, bytes)]
      ensures wait >= 0.0 && (bytes == 0 || profile.rate <= 0.0 ==> wait == 0.0)
      ensures bytes > 0 && profile.rate > 0.0 ==>
        forall until: real | until >= now :: Covered(profile, log, until) <==> now + wait <= until
    {
      CallKeepsBehind(profile, Replay(profile, start, log), Abs(), ReserveCall(bytes, now));
      WaitFacts(profile, Abs(), bytes, now);
      wait := Account(bytes, now);
      clock := now;
      if bytes > 0 {
        LogOne(profile, start, log, Request(now, bytes));
        log := log + [Request(now, bytes)];
      }
    }

    /** What `reserve` does to the fields. */
    method Account(bytes: nat, now: real) returns (wait: real)
      modifies this`tokens, this`last, this`totalBytesReserved, this`totalThrottled
      ensures (Abs(), wait) == TokenBucket.Reserve(profile, old(Abs()), bytes, now)
    {
      if bytes == 0 {
        return 0.0;
      }
      totalBytesReserved := SaturatingAdd(totalBytesReserved, bytes);
      if profile.rate <= 0.0 {
        return 0.0;
      }
      Fill(now);
      tokens := tokens - bytes as real;
      if tokens >= 0.0 {
        wait := 0.0;
      } else {
        totalThrottled := totalThrottled + 1;
        wait := -tokens / profile.rate;
      }
    }

    /** What is reported as available can be reserved without a wait, and no more can be. */
    method Stats(now: real) returns (available: real, reserved: nat, throttled: nat)
      requires Valid() && clock <= now
      modifies this
      ensures Valid() && clock == now && log == old(log)
      ensures Abs() == Refill(profile, old(Abs()), now)
      ensures available == if tokens >= 0.0 then tokens else 0.0
      ensures profile.rate > 0.0 ==>
        forall bytes: nat | bytes > 0 ::
          bytes as real <= available <==> Covered(profile, log + [Request(now, bytes)], now)
      ensures reserved ==
              if BytesFrom(log, 0) < 0x1_0000_0000_0000_0000 then BytesFrom(log, 0) else 0xFFFF_FFFF_FFFF_FFFF
      ensures throttled == if profile.rate > 0.0 then LateRequests(profile, log) else 0
    {
      TotalIsSum(profile, start, log);
      if profile.rate > 0.0 {
        ThrottledAreLate(profile, start, log);
      } else {
        NeverThrottled(profile, start, log);
      }
      CallKeepsBehind(profile, Replay(profile, start, log), Abs(), StatsCall(now));
      if profile.rate > 0.0 {
        BalanceIsFree(profile, start, log, Abs(), now);
      }
      clock := now;
      Fill(now);
      available := if tokens >= 0.0 then tokens else 0.0;
      return available, totalBytesReserved, totalThrottled;
    }

    /** `refill`. */
    method Fill(now: real)
      modifies this`tokens, this`last
      ensures Abs() == Refill(profile, old(Abs()), now)
    {
      if now <= last {
        return;
      }
      if profile.rate > 0.0 {
        tokens := Min(tokens + (now - last) * profile.rate, profile.burst as real);
      }
      last := now;
    }
  }

  /** After a refill, a request is covered at once exactly if its bytes do not exceed the balance. */
  lemma BalanceIsFree(p: Profile, start: real, log: seq<Request>, seen: Bucket, now: real)
    requires p.rate > 0.0 && Proper(start, log) && LastAt(start, log) <= now && seen.last <= now
    requires Behind(p, Replay(p, start, log), seen)
    ensures forall bytes: nat | bytes > 0 ::
      bytes as real <= Refill(p, seen, now).tokens <==> Covered(p, log + [Request(now, bytes)], now)
  {
    RefillsCompose(p, Replay(p, start, log), seen.last, now);
    forall bytes: nat | bytes > 0
      ensures bytes as real <= Refill(p, seen, now).tokens <==> Covered(p, log + [Request(now, bytes)], now)
    {
      LogOne(p, start, log, Request(now, bytes));
      CoveredIfNoDebt(p, Replay(p, start, log), bytes, now);
    }
  }

  lemma CoveredIfNoDebt(p: Profile, b: Bucket, bytes: nat, now: real)
    requires p.rate > 0.0 && bytes > 0
    ensures TokenBucket.Reserve(p, b, bytes, now).1 <= 0.0 <==> bytes as real <= Refill(p, b, now).tokens
  {
    var left := Refill(p, b, now).tokens - bytes as real;
    WaitPaysDebt(p, left);
    if left < 0.0 {
      EarnedOrder(p, WaitFor(p, left), 0.0);
    }
  }

  lemma LogOne(p: Profile, start: real, log: seq<Request>, r: Request)
    requires Proper(start, log) && LastAt(start, log) <= r.at && r.bytes > 0
    ensures Proper(start, log + [r]) && LastAt(start, log + [r]) == r.at
    ensures Replay(p, start, log + [r]) == Step(p, Replay(p, start, log), ReserveCall(r.bytes, r.at))
    ensures p.rate > 0.0 ==> forall until: real | until >= r.at ::
      Covered(p, log + [r], until) <==> r.at + TokenBucket.Reserve(p, Replay(p, start, log), r.bytes, r.at).1 <= until
  {
    assert (log + [r])[..|log|] == log;
    if p.rate > 0.0 {
      forall until: real | until >= r.at
        ensures Covered(p, log + [r], until) <==>
                r.at + TokenBucket.Reserve(p, Replay(p, start, log), r.bytes, r.at).1 <= until
      {
        LeastWait(p, start, log, r, until - r.at);
        assert r.at + (until - r.at) == until;
      }
    }
  }
}
