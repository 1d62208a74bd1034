/** The Gateway's sliding-window rate limiter. */
module RateLimit {
  datatype Decision = Decision(allowed: bool, limit: int, remaining: int, retryAfter: int, resetAfter: int)

  datatype Creation = Made(limiter: SlidingWindowRateLimiter) | ValueError(message: string)

  /** The least integer that is not below `x`. */
  function Ceil(x: real): (n: int)
    ensures (n - 1) as real < x <= n as real
  {
    -((-x).Floor)
  }

  function Max(a: int, b: int): int {
    if a < b then b else a
  }

  /** The deque without its leading entries at or before `cutoff`. */
  function Prune(d: seq<real>, cutoff: real): seq<real> {
    if d != [] && d[0] <= cutoff then Prune(d[1..], cutoff) else d
  }

  /** Limit and window of a limiter the constructor accepts. */
  datatype Policy = Policy(limit: int, window: real)
  {
    predicate Valid() {
      1 <= limit && 0.0 < window
    }

    /** Whether a check at `now` admits its request, given the deque of its key. */
    predicate Admits(d: seq<real>, now: real) {
      |Prune(d, now - window)| < limit
    }

    /** The deque of the key after a check at `now`. */
    function Next(d: seq<real>, now: real): seq<real> {
      Prune(d, now - window) + if Admits(d, now) then [now] else []
    }

    /** The seconds until the oldest entry leaves the window, in whole seconds and at least one. */
    function Wait(d: seq<real>, now: real): int
      requires d != []
    {
      Max(1, Ceil(d[0] + window - now))
    }

    function Decide(d: seq<real>, now: real): Decision
      requires Valid()
    {
      var next := Next(d, now);
      if Admits(d, now) then Decision(true, limit, Max(0, limit - |next|), 0, Wait(next, now))
      else Decision(false, limit, 0, Wait(next, now), Wait(next, now))
    }
  }

  class SlidingWindowRateLimiter {
    const limit: int
    const windowSeconds: real
    var requests: map<string, seq<real>>

    ghost predicate Valid() {
      Policy(limit, windowSeconds).Valid()
    }

    constructor (limit: int, windowSeconds: real)
      requires Policy(limit, windowSeconds).Valid()
      ensures Valid() && this.limit == limit && this.windowSeconds == windowSeconds && requests == map[]
    {
      this.limit, this.windowSeconds := limit, windowSeconds;
      requests := map[];
    }

    static method Create(limit: int, windowSeconds: real) returns (r: Creation)
      ensures r.Made? <==> Policy(limit, windowSeconds).Valid()
      ensures limit < 1 ==> r == ValueError("limit must be at least 1")
      ensures 1 <= limit && windowSeconds <= 0.0 ==> r == ValueError("window_seconds must be positive")
      ensures r.Made? ==> fresh(r.limiter) && r.limiter.Valid() && r.limiter.limit == limit
                          && r.limiter.windowSeconds == windowSeconds && r.limiter.requests == map[]
    {
      if limit < 1 {
        return ValueError("limit must be at least 1");
      }
      if windowSeconds <= 0.0 {
        return ValueError("window_seconds must be positive");
      }
      var limiter := new SlidingWindowRateLimiter(limit, windowSeconds);
      return Made(limiter);
    }

    /** The deque of `key`, empty when the key is new. */
    function Timestamps(key: string): seq<real>
      reads this
    {
      if key in requests then requests[key] else []
    }

    method Check(key: string, now: real) returns (r: Decision)
      requires Valid()
      modifies this
      ensures requests == old(requests)[key := Policy(limit, windowSeconds).Next(old(Timestamps(key)), now)]
      ensures r == Policy(limit, windowSeconds).Decide(old(Timestamps(key)), now)
    {
      var cutoff := now - windowSeconds;
      var timestamps := Timestamps(key);
      while timestamps != [] && timestamps[0] <= cutoff
        invariant Prune(timestamps, cutoff) == Prune(old(Timestamps(key)), cutoff)
      {
        timestamps := timestamps[1..];
      }
      ghost var next := Policy(limit, windowSeconds).Next(old(Timestamps(key)), now);
      if |timestamps| >= limit {
        assert next == timestamps;
        requests := requests[key := timestamps];
        var retryAfter := Max(1, Ceil(timestamps[0] + windowSeconds - now));
        return Decision(false, limit, 0, retryAfter, retryAfter);
      }
      timestamps := timestamps + [now];
      requests := requests[key := timestamps];
      var remaining := Max(0, limit - |timestamps|);
      var resetAfter := Max(1, Ceil(timestamps[0] + windowSeconds - now));
      return Decision(true, limit, remaining, 0, resetAfter);
    }

    method Reset()
      modifies this
      ensures requests == map[]
    {
      requests := map[];
    }
  }
}
