/** The token-bucket rate limiter of the API layer. Readings of the
    monotonic clock are parameters: `now` for the operations that read it
    once, and the sequence of readings taken by successive refills for
    `acquire`. The asynchronous sleep between refills is not modelled beyond
    the fact that the clock has advanced by the next reading. */
module RateLimit {
  import opened Common

  /** Tokens available and the clock reading of the last refill. */
  datatype Bucket = Bucket(tokens: real, lastUpdate: real)

  /** `_add_tokens()` at clock reading `now`. */
  function Refill(b: Bucket, now: real, rate: real, burst: int): (b': Bucket)
    ensures b'.lastUpdate == now
    ensures b'.tokens <= burst as real
    ensures b'.tokens == burst as real || b'.tokens == b.tokens + (now - b.lastUpdate) * rate
  {
    Bucket(Min(burst as real, b.tokens + (now - b.lastUpdate) * rate), now)
  }

  /** A refill after time has passed, at a non-negative rate, never loses
      tokens unless they were above the burst size. */
  lemma {:induction false} RefillMonotone(b: Bucket, now: real, rate: real, burst: int)
    requires b.lastUpdate <= now && rate >= 0.0 && b.tokens <= burst as real
    ensures Refill(b, now, rate, burst).tokens >= b.tokens
  {
    assert (now - b.lastUpdate) * rate >= 0.0;
  }

  /** How a call to `acquire(n)` ends: it returns, it is still waiting when
      the clock readings run out, or the wait time divides by a zero rate. */
  datatype AcquireOutcome = Acquired | StillWaiting | ZeroRate

  /** The run of `acquire(n)` from bucket `b`, taking the clock readings of
      `clock` at successive refills. */
  function AcquireRun(b: Bucket, n: int, rate: real, burst: int, clock: seq<real>): (r: (AcquireOutcome, Bucket))
    ensures r.0 == Acquired ==> r.1.tokens >= 0.0
    ensures r.0 == Acquired && b.tokens >= n as real ==> r.1 == Bucket(b.tokens - n as real, b.lastUpdate)
    ensures r.0 != Acquired ==> r.1.tokens < n as real
    decreases |clock|
  {
    if b.tokens >= n as real then (Acquired, Bucket(b.tokens - n as real, b.lastUpdate))
    else if clock == [] then (StillWaiting, b)
    else
      var b' := Refill(b, clock[0], rate, burst);
      if b'.tokens < n as real && rate == 0.0 then (ZeroRate, b')
      else AcquireRun(b', n, rate, burst, clock[1..])
  }

  /** Refills cap the bucket at `burst`, so a request for more than `burst`
      tokens from a bucket that holds at most `burst` never returns. */
  lemma {:induction false} AcquireOverBurstNeverReturns(b: Bucket, n: int, rate: real, burst: int, clock: seq<real>)
    requires b.tokens <= burst as real && n > burst
    ensures AcquireRun(b, n, rate, burst, clock).0 != Acquired
    decreases |clock|
  {
    if clock != [] {
      AcquireOverBurstNeverReturns(Refill(b, clock[0], rate, burst), n, rate, burst, clock[1..]);
    }
  }

  /** A bucket at or below `burst` stays there after a successful acquire of
      a non-negative number of tokens. */
  lemma {:induction false} AcquireKeepsBound(b: Bucket, n: int, rate: real, burst: int, clock: seq<real>)
    requires b.tokens <= burst as real && n >= 0
    ensures AcquireRun(b, n, rate, burst, clock).1.tokens <= burst as real
    decreases |clock|
  {
    if b.tokens < n as real && clock != [] {
      AcquireKeepsBound(Refill(b, clock[0], rate, burst), n, rate, burst, clock[1..]);
    }
  }

  /** With a positive rate, a request within the burst size returns at the
      first refill whose clock reading is late enough. */
  lemma {:induction false} AcquireReturnsWhenRefilled(b: Bucket, n: int, rate: real, burst: int, clock: seq<real>)
    requires rate > 0.0 && n <= burst && b.tokens < n as real
    requires |clock| > 0 && (clock[0] - b.lastUpdate) * rate >= n as real - b.tokens
    ensures AcquireRun(b, n, rate, burst, clock).0 == Acquired
  {
    var b' := Refill(b, clock[0], rate, burst);
    assert b'.tokens >= n as real;
  }

  /** An endpoint's own limit: `{'rate', 'burst', 'tokens', 'last_update'}`. */
  datatype EndpointLimit = EndpointLimit(rate: real, burst: int, tokens: int, lastUpdate: real)

  /** `burst or int(rate * 2)`. */
  function EndpointBurst(rate: real, burst: Option<int>): (b: int)
    ensures burst.Some? && burst.value != 0 ==> b == burst.value
    ensures burst.None? || burst.value == 0 ==> b == Trunc(rate * 2.0)
  {
    if burst.Some? && burst.value != 0 then burst.value else Trunc(rate * 2.0)
  }

  class RateLimiter {
    const rate: real
    const burst: int
    var tokens: real
    var lastUpdate: real
    var endpointLimits: map<string, EndpointLimit>

    /** `RateLimiter(rate=1.0, burst=5)` created at clock reading `now`: the
        bucket starts full. */
    constructor(rate: real, burst: int, now: real)
      ensures this.rate == rate && this.burst == burst
      ensures tokens == burst as real && lastUpdate == now
      ensures endpointLimits == map[]
    {
      this.rate := rate;
      this.burst := burst;
      tokens := burst as real;
      lastUpdate := now;
      endpointLimits := map[];
    }

    /** `_add_tokens()` at clock reading `now`. */
    method AddTokens(now: real)
      modifies this
      ensures Bucket(tokens, lastUpdate) == Refill(old(Bucket(tokens, lastUpdate)), now, rate, burst)
      ensures endpointLimits == old(endpointLimits)
    {
      var elapsed := now - lastUpdate;
      var newTokens := elapsed * rate;
      tokens := Min(burst as real, tokens + newTokens);
      lastUpdate := now;
    }

    /** `acquire(n)`; the refills read the clock values of `clock` in turn. */
    method Acquire(n: int, clock: seq<real>) returns (outcome: AcquireOutcome)
      modifies this
      ensures (outcome, Bucket(tokens, lastUpdate)) == AcquireRun(old(Bucket(tokens, lastUpdate)), n, rate, burst, clock)
      ensures endpointLimits == old(endpointLimits)
    {
      var i := 0;
      while tokens < n as real
        invariant 0 <= i <= |clock|
        invariant endpointLimits == old(endpointLimits)
        invariant AcquireRun(Bucket(tokens, lastUpdate), n, rate, burst, clock[i..]) ==
                  AcquireRun(old(Bucket(tokens, lastUpdate)), n, rate, burst, clock)
        decreases |clock| - i
      {
        if i == |clock| {
          return StillWaiting;
        }
        assert clock[i..][1..] == clock[i + 1..];
        AddTokens(clock[i]);
        i := i + 1;
        if tokens < n as real && rate == 0.0 {
          return ZeroRate;
        }
      }
      tokens := tokens - n as real;
      outcome := Acquired;
    }

    /** `set_endpoint_limit(endpoint, rate, burst)` at clock reading `now`:
        the endpoint's bucket starts full; the global bucket is untouched. */
    method SetEndpointLimit(endpoint: string, rate: real, burst: Option<int>, now: real)
      modifies this
      ensures endpointLimits == old(endpointLimits)[endpoint :=
        EndpointLimit(rate, EndpointBurst(rate, burst), EndpointBurst(rate, burst), now)]
      ensures tokens == old(tokens) && lastUpdate == old(lastUpdate)
    {
      var b := EndpointBurst(rate, burst);
      endpointLimits := endpointLimits[endpoint := EndpointLimit(rate, b, b, now)];
    }

    /** `remove_endpoint_limit(endpoint)`: absent is a no-op. */
    method RemoveEndpointLimit(endpoint: string)
      modifies this
      ensures endpointLimits == old(endpointLimits) - {endpoint}
      ensures tokens == old(tokens) && lastUpdate == old(lastUpdate)
    {
      endpointLimits := endpointLimits - {endpoint};
    }
  }
}
