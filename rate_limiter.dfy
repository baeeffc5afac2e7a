/**
 * The client's token bucket. It holds at most `requestsPerMinute` tokens and
 * refills at `requestsPerMinute / 60` tokens a second. Each request takes one
 * token, or waits until one would have accumulated and then empties the
 * bucket. Times are the event loop's clock in seconds. They are passed in,
 * and the wait is returned instead of slept.
 */
module RateLimiting {

  /** `tokens` and `last_update`, the fields `acquire` rewrites. */
  datatype Bucket = Bucket(tokens: real, lastUpdate: real)

  /** How a request got through `acquire`. */
  datatype Admission =
    | Immediate            // a token was available and taken
    | After(wait: real)    // slept `wait` seconds, then the bucket was emptied
    | ZeroDivision         // `requests_per_minute / 60.0` was zero: ZeroDivisionError

  function Min(a: real, b: real): (m: real)
    ensures m <= a && m <= b && (m == a || m == b)
  {
    if a <= b then a else b
  }

  /** Tokens per second. */
  function Rate(rpm: int): real
  {
    rpm as real / 60.0
  }

  /** The fill after the time since the last update is credited, capped at `rpm`. */
  function Refilled(rpm: int, b: Bucket, now: real): (t: real)
    ensures t <= rpm as real
  {
    Min(rpm as real, b.tokens + (now - b.lastUpdate) * Rate(rpm))
  }

  /** Time that has not gone back credits a non-negative amount, so a bucket in bounds does not shrink. */
  lemma RefillNeverDrains(rpm: int, b: Bucket, now: real)
    requires rpm >= 0 && now >= b.lastUpdate && b.tokens <= rpm as real
    ensures Refilled(rpm, b, now) >= b.tokens
  {
    var credit := (now - b.lastUpdate) * Rate(rpm);
    assert credit >= 0.0 by {
      assert now - b.lastUpdate >= 0.0 && Rate(rpm) >= 0.0;
    }
  }

  /** One `acquire` at time `now`: the new bucket and how the request was let through. */
  function AcquireStep(rpm: int, b: Bucket, now: real): (r: (Bucket, Admission))
    ensures r.0.lastUpdate == now
    ensures r.1 == Immediate <==> Refilled(rpm, b, now) >= 1.0
    ensures r.1 == Immediate ==> r.0.tokens == Refilled(rpm, b, now) - 1.0
    ensures r.1 == ZeroDivision <==> rpm == 0 && Refilled(rpm, b, now) < 1.0
    ensures r.1.After? ==> r.0.tokens == 0.0 && r.1.wait == (1.0 - Refilled(rpm, b, now)) * 60.0 / rpm as real
  {
    var t := Refilled(rpm, b, now);
    if t < 1.0 then
      if rpm == 0 then (Bucket(t, now), ZeroDivision)
      else (Bucket(0.0, now), After((1.0 - t) / Rate(rpm)))
    else (Bucket(t - 1.0, now), Immediate)
  }

  /** The bucket never holds more than `rpm` tokens, nor fewer than none. */
  predicate InBounds(rpm: int, b: Bucket)
  {
    0.0 <= b.tokens <= rpm as real
  }

  class RateLimiter {
    const requestsPerMinute: int
    var tokens: real
    var lastUpdate: real

    /** `RateLimiter(requests_per_minute)`: a full bucket, last updated now. */
    constructor (requestsPerMinute: int, now: real)
      ensures this.requestsPerMinute == requestsPerMinute
      ensures State() == Bucket(requestsPerMinute as real, now)
    {
      this.requestsPerMinute := requestsPerMinute;
      tokens := requestsPerMinute as real;
      lastUpdate := now;
    }

    function State(): Bucket
      reads this
    {
      Bucket(tokens, lastUpdate)
    }

    /** `acquire()`, the clock reading `now`. */
    method Acquire(now: real) returns (a: Admission)
      modifies this
      ensures (State(), a) == AcquireStep(requestsPerMinute, old(State()), now)
    {
      var elapsed := now - lastUpdate;
      tokens := Min(requestsPerMinute as real, tokens + elapsed * Rate(requestsPerMinute));
      lastUpdate := now;
      assert tokens == Refilled(requestsPerMinute, old(State()), now);
      if tokens < 1.0 {
        if requestsPerMinute == 0 {
          a := ZeroDivision;
          return;
        }
        a := After((1.0 - tokens) / Rate(requestsPerMinute));
        tokens := 0.0;
      } else {
        tokens := tokens - 1.0;
        a := Immediate;
      }
    }
  }

  // ------------------------------------------------------------ one step

  /**
   * A positive rate leaves the bucket within 0..rpm tokens, whatever it held
   * and whatever the clock says, and records `now`.
   */
  lemma AcquireInBounds(rpm: int, b: Bucket, now: real)
    requires rpm > 0
    ensures InBounds(rpm, AcquireStep(rpm, b, now).0)
    ensures AcquireStep(rpm, b, now).0.lastUpdate == now
    ensures AcquireStep(rpm, b, now).1 != ZeroDivision
  {
  }

  /** With at least one token after the refill, exactly one is taken and nobody waits. */
  lemma TakesOneToken(rpm: int, b: Bucket, now: real)
    requires Refilled(rpm, b, now) >= 1.0
    ensures AcquireStep(rpm, b, now) == (Bucket(Refilled(rpm, b, now) - 1.0, now), Immediate)
  {
  }

  /**
   * Otherwise, at a positive rate, the wait is positive and is exactly the
   * time the refilled bucket needs to reach one token. Afterwards the bucket
   * is empty.
   */
  lemma WaitsForOneToken(rpm: int, b: Bucket, now: real)
    requires rpm > 0 && Refilled(rpm, b, now) < 1.0
    ensures var (b', a) := AcquireStep(rpm, b, now);
      && a.After? && a.wait > 0.0
      && Refilled(rpm, b, now) + a.wait * Rate(rpm) == 1.0
      && b' == Bucket(0.0, now)
  {
    var t := Refilled(rpm, b, now);
    var w := (1.0 - t) / Rate(rpm);
    assert w * Rate(rpm) == 1.0 - t;
  }

  /** From a bucket in bounds and a clock that has not gone back, no wait exceeds one token's time, 60/rpm. */
  lemma WaitAtMostOneInterval(rpm: int, b: Bucket, now: real)
    requires rpm > 0 && InBounds(rpm, b) && now >= b.lastUpdate
    ensures var a := AcquireStep(rpm, b, now).1;
      a.After? ==> a.wait <= 60.0 / rpm as real
  {
    var t := Refilled(rpm, b, now);
    RefillNeverDrains(rpm, b, now);
    if t < 1.0 {
      assert (1.0 - t) / Rate(rpm) <= 1.0 / Rate(rpm);
      assert 1.0 / Rate(rpm) == 60.0 / rpm as real;
    }
  }

  /** A zero rate always fails with ZeroDivisionError, after recording the refill. */
  lemma ZeroRateFails(b: Bucket, now: real)
    ensures AcquireStep(0, b, now) == (Bucket(Min(0.0, b.tokens), now), ZeroDivision)
  {
  }

  // ------------------------------------------------------------ a run of calls

  /** The bucket after `acquire` at each of `times` in turn, and each call's admission. */
  function Run(rpm: int, b: Bucket, times: seq<real>): (Bucket, seq<Admission>)
    decreases |times|
  {
    if times == [] then (b, [])
    else
      var n := |times| - 1;
      var (mid, seen) := Run(rpm, b, times[..n]);
      var (after, a) := AcquireStep(rpm, mid, times[n]);
      (after, seen + [a])
  }

  /**
   * In bounds before, in bounds after any number of calls at a positive
   * rate: one admission per call, none of them a ZeroDivisionError, and the
   * bucket last updated at the last call.
   */
  lemma {:induction false} RunInBounds(rpm: int, b: Bucket, times: seq<real>)
    requires rpm > 0 && InBounds(rpm, b)
    ensures InBounds(rpm, Run(rpm, b, times).0)
    ensures |Run(rpm, b, times).1| == |times|
    ensures forall i :: 0 <= i < |times| ==> Run(rpm, b, times).1[i] != ZeroDivision
    ensures times != [] ==> Run(rpm, b, times).0.lastUpdate == times[|times| - 1]
    decreases |times|
  {
    if times != [] {
      var n := |times| - 1;
      RunInBounds(rpm, b, times[..n]);
      var (mid, seen) := Run(rpm, b, times[..n]);
      AcquireInBounds(rpm, mid, times[n]);
      var all := Run(rpm, b, times).1;
      assert all == seen + [AcquireStep(rpm, mid, times[n]).1];
      assert forall i :: 0 <= i < n ==> all[i] == seen[i];
    }
  }

  function Repeat<T>(x: T, k: nat): (s: seq<T>)
    ensures |s| == k && forall i :: 0 <= i < k ==> s[i] == x
  {
    seq(k, _ => x)
  }

  /**
   * A fresh limiter lets `rpm` calls at the same instant straight through,
   * one token each.
   */
  lemma {:induction false} Burst(rpm: int, t0: real, k: nat)
    requires 0 < k <= rpm
    ensures Run(rpm, Bucket(rpm as real, t0), Repeat(t0, k)) == (Bucket((rpm - k) as real, t0), Repeat(Immediate, k))
    decreases k
  {
    var times := Repeat(t0, k);
    assert times[..k - 1] == Repeat(t0, k - 1);
    if k == 1 {
      assert times[..0] == [];
    } else {
      Burst(rpm, t0, k - 1);
    }
    var mid := Bucket((rpm - (k - 1)) as real, t0);
    assert Refilled(rpm, mid, t0) == (rpm - k + 1) as real;
    assert Repeat(Immediate, k - 1) + [Immediate] == Repeat(Immediate, k);
  }

  /** ... and the next call at that instant waits one token's time, 60/rpm seconds. */
  lemma BurstThenWait(rpm: int, t0: real)
    requires rpm > 0
    ensures var (b, seen) := Run(rpm, Bucket(rpm as real, t0), Repeat(t0, rpm + 1));
      seen == Repeat(Immediate, rpm) + [After(60.0 / rpm as real)] && b == Bucket(0.0, t0)
  {
    var times := Repeat(t0, rpm + 1);
    assert times[..rpm] == Repeat(t0, rpm);
    Burst(rpm, t0, rpm);
    var empty := Bucket(0.0, t0);
    assert Refilled(rpm, empty, t0) == 0.0;
    assert 1.0 / Rate(rpm) == 60.0 / rpm as real;
  }
}
