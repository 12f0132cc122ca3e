/**
 * The fixed-window rate limiter of src/utils/rate_limiting.py.
 *
 * Every key owns an entry `{count, reset_time}`. The clock (`time()` in
 * milliseconds) is the parameter `now`; each body the source runs under its
 * lock is one atomic step here. The pure functions `Check`, `Info` and
 * `Sweep` specify one step each; the class `RateLimiter` updates its map in
 * place and is proved against them.
 */
module RateLimiting {
  import opened Wrappers

  /** Window length in milliseconds and the number of requests admitted per window. */
  datatype RateLimitConfig = RateLimitConfig(windowMs: int, maxRequests: int)

  /** 15 minutes, 200 requests. */
  const DEFAULT_RATE_LIMIT_CONFIG: RateLimitConfig := RateLimitConfig(15 * 60 * 1000, 200)

  /** The code of the error raised when a key is over its limit. */
  const RATE_LIMIT_EXCEEDED: int := 42900

  /** Seconds between two sweeps of expired entries. */
  const CLEANUP_INTERVAL: int := 60

  /** The entry of one key: requests seen in the window and when the window ends. */
  datatype RequestInfo = RequestInfo(count: int, resetTime: int)

  type Counts = map<string, RequestInfo>

  /** The error this module raises: a message and a numeric code. */
  datatype RateLimitError = RateLimitError(message: string, code: int)

  /** The snapshot returned by `get_rate_limit_info`. */
  datatype RateLimitInfo = RateLimitInfo(remaining: int, resetTime: int)

  /** Whether a request was admitted, and the map after the request. */
  datatype CheckResult = CheckResult(allowed: bool, counts: Counts)

  function Max(a: int, b: int): int {
    if a < b then b else a
  }

  /** A window has passed once the clock is strictly beyond its reset time. */
  predicate Expired(info: RequestInfo, now: int) {
    now > info.resetTime
  }

  /** Whether `key` has a window that is still open at `now`. */
  predicate Live(counts: Counts, key: string, now: int) {
    key in counts && !Expired(counts[key], now)
  }

  /** One atomic `check_rate_limit(key)` at time `now`. */
  function Check(config: RateLimitConfig, counts: Counts, key: string, now: int): (r: CheckResult)
    ensures key in r.counts
    ensures r.counts - {key} == counts - {key}
    ensures r.allowed <==> !Live(counts, key, now) || counts[key].count < config.maxRequests
  {
    if key !in counts || Expired(counts[key], now) then
      CheckResult(true, counts[key := RequestInfo(1, now + config.windowMs)])
    else if counts[key].count >= config.maxRequests then
      CheckResult(false, counts)
    else
      CheckResult(true, counts[key := counts[key].(count := counts[key].count + 1)])
  }

  /** An unseen or expired key gets a fresh window holding this one request. */
  lemma CheckOpensFreshWindow(config: RateLimitConfig, counts: Counts, key: string, now: int)
    requires !Live(counts, key, now)
    ensures Check(config, counts, key, now) ==
            CheckResult(true, counts[key := RequestInfo(1, now + config.windowMs)])
  {
  }

  /** A full window that is still open denies the request and changes nothing. */
  lemma CheckDeniesFullWindow(config: RateLimitConfig, counts: Counts, key: string, now: int)
    requires Live(counts, key, now) && counts[key].count >= config.maxRequests
    ensures Check(config, counts, key, now) == CheckResult(false, counts)
  {
  }

  /** At exactly the reset time the old window still applies. */
  lemma CheckAtResetTimeUsesOldWindow(config: RateLimitConfig, counts: Counts, key: string)
    requires key in counts && counts[key].count >= config.maxRequests
    ensures !Check(config, counts, key, counts[key].resetTime).allowed
  {
  }

  /** An open window with room counts the request and keeps its reset time. */
  lemma CheckCountsRequest(config: RateLimitConfig, counts: Counts, key: string, now: int)
    requires Live(counts, key, now) && counts[key].count < config.maxRequests
    ensures Check(config, counts, key, now) ==
            CheckResult(true, counts[key := RequestInfo(counts[key].count + 1, counts[key].resetTime)])
  {
  }

  /** Every entry holds between 1 and max(1, max_requests) requests. */
  ghost predicate Bounded(config: RateLimitConfig, counts: Counts) {
    forall k :: k in counts ==> 1 <= counts[k].count <= Max(1, config.maxRequests)
  }

  lemma CheckPreservesBounded(config: RateLimitConfig, counts: Counts, key: string, now: int)
    requires Bounded(config, counts)
    ensures Bounded(config, Check(config, counts, key, now).counts)
  {
    var r := Check(config, counts, key, now);
    forall k | k in r.counts ensures 1 <= r.counts[k].count <= Max(1, config.maxRequests) {
      if k != key {
        assert k in r.counts - {key};
      }
    }
  }

  /** `enforce_rate_limit(key)`: a denied check becomes a raised error. */
  function Enforce(config: RateLimitConfig, counts: Counts, key: string, now: int): (r: (Outcome<RateLimitError>, Counts))
    ensures r.0.Fail? <==> !Check(config, counts, key, now).allowed
    ensures r.0.Fail? ==> r.0.error == RateLimitExceeded(key) && r.0.error.code == RATE_LIMIT_EXCEEDED
    ensures r.1 == Check(config, counts, key, now).counts
  {
    var c := Check(config, counts, key, now);
    if c.allowed then (Pass, c.counts)
    else (Fail(RateLimitExceeded(key)), c.counts)
  }

  /** The error raised for a key over its limit. */
  function RateLimitExceeded(key: string): RateLimitError {
    RateLimitError("Rate limit exceeded for " + key + ". Please try again later.", RATE_LIMIT_EXCEEDED)
  }

  /** `get_rate_limit_info(key)`: absent keys give `None`. */
  function Info(config: RateLimitConfig, counts: Counts, key: string): (r: Option<RateLimitInfo>)
    ensures r.None? <==> key !in counts
    ensures r.Some? ==> r.value.remaining >= 0 && r.value.resetTime == counts[key].resetTime
    ensures r.Some? ==> r.value.remaining == Max(0, config.maxRequests - counts[key].count)
  {
    if key !in counts then None
    else Some(RateLimitInfo(Max(0, config.maxRequests - counts[key].count), counts[key].resetTime))
  }

  /** In an open window, the next request is admitted exactly when some remain. */
  lemma InfoPredictsCheck(config: RateLimitConfig, counts: Counts, key: string, now: int)
    requires Live(counts, key, now)
    ensures Check(config, counts, key, now).allowed <==> Info(config, counts, key).value.remaining > 0
  {
  }

  /** After the first request of a key, `max_requests - 1` remain until `now + window_ms`. */
  lemma InfoAfterFirstCheck(config: RateLimitConfig, counts: Counts, key: string, now: int)
    requires !Live(counts, key, now)
    ensures Info(config, Check(config, counts, key, now).counts, key) ==
            Some(RateLimitInfo(Max(0, config.maxRequests - 1), now + config.windowMs))
  {
  }

  /** The entries the sweep at `now` keeps: exactly the unexpired ones, unchanged. */
  function Sweep(counts: Counts, now: int): (r: Counts)
    ensures forall k :: k in r <==> k in counts && !Expired(counts[k], now)
    ensures forall k :: k in r ==> r[k] == counts[k]
  {
    map k | k in counts && !Expired(counts[k], now) :: counts[k]
  }

  lemma SweepPreservesBounded(config: RateLimitConfig, counts: Counts, now: int)
    requires Bounded(config, counts)
    ensures Bounded(config, Sweep(counts, now))
  {
  }

  /** When every window has passed, one sweep empties the map. */
  lemma SweepRemovesAllExpired(counts: Counts, now: int)
    requires forall k :: k in counts ==> Expired(counts[k], now)
    ensures Sweep(counts, now) == map[]
  {
  }

  /** A swept key is reported absent. */
  lemma InfoAbsentAfterSweep(config: RateLimitConfig, counts: Counts, key: string, now: int)
    requires key in counts && Expired(counts[key], now)
    ensures Info(config, Sweep(counts, now), key).None?
  {
  }

  /**
   * The sweep never changes an admission decision: a later check admits a
   * request after the sweep exactly when it would have without it, and leaves
   * the same entry for its key.
   */
  lemma {:induction false} SweepIsUnobservable(config: RateLimitConfig, counts: Counts, key: string, swept: int, now: int)
    requires swept <= now
    ensures Check(config, Sweep(counts, swept), key, now).allowed == Check(config, counts, key, now).allowed
    ensures Check(config, Sweep(counts, swept), key, now).counts[key] == Check(config, counts, key, now).counts[key]
  {
    var s := Sweep(counts, swept);
    if key in counts && !Expired(counts[key], swept) {
      assert key in s && s[key] == counts[key];
    } else {
      assert !Live(s, key, now);
      assert !Live(counts, key, now);
    }
  }

  /** The admission decisions of `n` successive checks of one key at one instant. */
  function Outcomes(config: RateLimitConfig, counts: Counts, key: string, now: int, n: nat): (r: seq<bool>)
    ensures |r| == n
    decreases n
  {
    if n == 0 then []
    else
      var c := Check(config, counts, key, now);
      [c.allowed] + Outcomes(config, c.counts, key, now, n - 1)
  }

  /** In an open window holding `c` requests, the i-th next request is admitted iff `c + i < max_requests`. */
  lemma {:induction false} OutcomesInOpenWindow(config: RateLimitConfig, counts: Counts, key: string, now: int, n: nat)
    requires Live(counts, key, now)
    ensures forall i :: 0 <= i < n ==>
      Outcomes(config, counts, key, now, n)[i] == (counts[key].count + i < config.maxRequests)
    decreases n
  {
    if n > 0 {
      var c := Check(config, counts, key, now);
      assert Live(c.counts, key, now) && c.counts[key].resetTime == counts[key].resetTime;
      OutcomesInOpenWindow(config, c.counts, key, now, n - 1);
      var rest := Outcomes(config, c.counts, key, now, n - 1);
      assert Outcomes(config, counts, key, now, n) == [c.allowed] + rest;
      if c.allowed {
        assert c.counts[key].count == counts[key].count + 1;
      } else {
        assert c.counts[key] == counts[key];
      }
      forall i | 1 <= i < n
        ensures Outcomes(config, counts, key, now, n)[i] == (counts[key].count + i < config.maxRequests)
      {
        assert Outcomes(config, counts, key, now, n)[i] == rest[i - 1];
      }
    }
  }

  /**
   * Without time advancing, exactly the first max(1, max_requests) checks of
   * an unseen or expired key are admitted (for a window that is not negative).
   */
  lemma {:induction false} FirstRequestsAdmitted(config: RateLimitConfig, counts: Counts, key: string, now: int, n: nat)
    requires config.windowMs >= 0
    requires !Live(counts, key, now)
    ensures forall i :: 0 <= i < n ==>
      Outcomes(config, counts, key, now, n)[i] == (i < Max(1, config.maxRequests))
  {
    if n > 0 {
      var c := Check(config, counts, key, now);
      assert c.counts[key] == RequestInfo(1, now + config.windowMs);
      OutcomesInOpenWindow(config, c.counts, key, now, n - 1);
      var rest := Outcomes(config, c.counts, key, now, n - 1);
      assert Outcomes(config, counts, key, now, n) == [true] + rest;
    }
  }

  /** With a negative window every entry is already expired, so every request is admitted. */
  lemma {:induction false} NegativeWindowAdmitsAll(config: RateLimitConfig, counts: Counts, key: string, now: int, n: nat)
    requires config.windowMs < 0
    requires !Live(counts, key, now)
    ensures forall i :: 0 <= i < n ==> Outcomes(config, counts, key, now, n)[i]
    decreases n
  {
    if n > 0 {
      var c := Check(config, counts, key, now);
      NegativeWindowAdmitsAll(config, c.counts, key, now, n - 1);
      assert Outcomes(config, counts, key, now, n) == [true] + Outcomes(config, c.counts, key, now, n - 1);
    }
  }

  /**
   * Two requests per second: calls at t=0, 0, 0 are admitted, admitted,
   * denied; a call at t=1001 opens a new window with one request left.
   */
  lemma TwoPerSecondScenario()
    ensures var config := RateLimitConfig(1000, 2);
      var c1 := Check(config, map[], "k", 0);
      var c2 := Check(config, c1.counts, "k", 0);
      var c3 := Check(config, c2.counts, "k", 0);
      var c4 := Check(config, c3.counts, "k", 1001);
      c1.allowed && c2.allowed && !c3.allowed && c4.allowed &&
      Info(config, c4.counts, "k") == Some(RateLimitInfo(1, 2001))
  {
  }

  /** A rate limiter owning the map from key to entry. */
  class RateLimiter {
    const config: RateLimitConfig
    const cleanupInterval: int
    var requestCounts: Counts
    /** Whether a sweep is scheduled to run `cleanupInterval` seconds from now. */
    var cleanupScheduled: bool

    ghost predicate Valid()
      reads this
    {
      Bounded(config, requestCounts)
    }

    /** A new limiter has no entries and schedules its first sweep. */
    constructor (config: RateLimitConfig := DEFAULT_RATE_LIMIT_CONFIG)
      ensures Valid()
      ensures this.config == config && cleanupInterval == CLEANUP_INTERVAL
      ensures requestCounts == map[] && cleanupScheduled
    {
      this.config := config;
      requestCounts := map[];
      cleanupInterval := CLEANUP_INTERVAL;
      cleanupScheduled := true;
    }

    method CheckRateLimit(key: string, now: int) returns (allowed: bool)
      requires Valid()
      modifies this`requestCounts
      ensures Valid()
      ensures CheckResult(allowed, requestCounts) == Check(config, old(requestCounts), key, now)
    {
      CheckPreservesBounded(config, requestCounts, key, now);
      if key !in requestCounts || now > requestCounts[key].resetTime {
        // Reset counter for new window
        requestCounts := requestCounts[key := RequestInfo(1, now + config.windowMs)];
        return true;
      }
      var info := requestCounts[key];
      if info.count >= config.maxRequests {
        return false;
      }
      requestCounts := requestCounts[key := info.(count := info.count + 1)];
      return true;
    }

    method EnforceRateLimit(key: string, now: int) returns (r: Outcome<RateLimitError>)
      requires Valid()
      modifies this`requestCounts
      ensures Valid()
      ensures (r, requestCounts) == Enforce(config, old(requestCounts), key, now)
    {
      var allowed := CheckRateLimit(key, now);
      if !allowed {
        return Fail(RateLimitExceeded(key));
      }
      return Pass;
    }

    method GetRateLimitInfo(key: string) returns (info: Option<RateLimitInfo>)
      ensures info == Info(config, requestCounts, key)
    {
      if key !in requestCounts {
        return None;
      }
      var entry := requestCounts[key];
      return Some(RateLimitInfo(Max(0, config.maxRequests - entry.count), entry.resetTime));
    }

    /** Deletes every expired entry, then schedules the next sweep. */
    method Cleanup(now: int)
      requires Valid()
      modifies this`requestCounts, this`cleanupScheduled
      ensures Valid()
      ensures requestCounts == Sweep(old(requestCounts), now)
      ensures cleanupScheduled
    {
      var keysToDelete := set k | k in requestCounts && now > requestCounts[k].resetTime;
      var pending := keysToDelete;
      while pending != {}
        invariant pending <= keysToDelete
        invariant requestCounts == old(requestCounts) - (keysToDelete - pending)
        decreases pending
      {
        var k :| k in pending;
        requestCounts := requestCounts - {k};
        pending := pending - {k};
      }
      assert requestCounts == Sweep(old(requestCounts), now);
      SweepPreservesBounded(config, old(requestCounts), now);
      cleanupScheduled := true;
    }

    /** Cancels the scheduled sweep; calling it again does nothing more. */
    method Dispose()
      modifies this`cleanupScheduled
      ensures !cleanupScheduled
    {
      cleanupScheduled := false;
    }
  }
}
