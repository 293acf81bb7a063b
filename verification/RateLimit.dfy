/** app/core/ratelimit.py: the fixed-window limiter, over one Redis counter per identity. Times are the
    server's clock in milliseconds. */
module RateLimit {
  import opened Results

  /** A Redis counter: its value, and when it expires unless it was stranded without an expiry. */
  datatype Counter = Counter(count: nat, expiresAt: Option<int>)

  /** `window` seconds, at least one (EXPIRE needs a positive argument), and the ceiling. */
  datatype Limits = Limits(window: nat, max: nat)

  datatype Decision = Decision(allowed: bool, retryAfter: int)

  /** Redis keeps a key up to and including its expiry millisecond. */
  predicate Live(c: Counter, now: int) {
    c.expiresAt.None? || now <= c.expiresAt.value
  }

  function Present(c: Option<Counter>, now: int): Option<Counter> {
    if c.Some? && Live(c.value, now) then c else None
  }

  /** TTL: -1 without an expiry, otherwise the remaining seconds, rounded half up. */
  function Ttl(c: Counter, now: int): int {
    if c.expiresAt.None? then -1
    else if now >= c.expiresAt.value then 0
    else (c.expiresAt.value - now + 500) / 1000
  }

  /** INCR, then EXPIRE when the counter is new or has no expiry. */
  function Bump(l: Limits, c: Option<Counter>, now: int): Counter {
    var count := if Present(c, now).Some? then c.value.count + 1 else 1;
    var counter := Counter(count, if Present(c, now).Some? then c.value.expiresAt else None);
    if count == 1 || Ttl(counter, now) < 0 then counter.(expiresAt := Some(now + 1000 * l.window)) else counter
  }

  function RetryAfter(l: Limits, bumped: Counter, now: int): int {
    if bumped.count <= l.max then 0
    else if Ttl(bumped, now) > 0 then Ttl(bumped, now) else l.window
  }

  predicate Allows(l: Limits, c: Option<Counter>, now: int) {
    Bump(l, c, now).count <= l.max
  }

  class RateLimiter {
    const limits: Limits
    var counters: map<string, Counter>

    constructor (limits: Limits)
      requires limits.window > 0
      ensures this.limits == limits && counters == map[]
    {
      this.limits := limits;
      counters := map[];
    }

    function Lookup(identity: string): Option<Counter>
      reads this
    {
      if identity in counters then Some(counters[identity]) else None
    }

    /** One atomic script per request. The counter it leaves always carries an expiry, a denial always a
        positive delay; without a backend the request is let through and nothing is counted. */
    method Check(identity: string, now: int, backendUp: bool) returns (d: Decision)
      requires limits.window > 0
      modifies `counters
      ensures d.allowed == (backendUp ==> Allows(limits, old(Lookup(identity)), now))
      ensures d.allowed ==> d.retryAfter == 0
      ensures !d.allowed ==> 0 < d.retryAfter == RetryAfter(limits, Bump(limits, old(Lookup(identity)), now), now)
      ensures counters == if backendUp then old(counters)[identity := Bump(limits, old(Lookup(identity)), now)]
          else old(counters)
      ensures backendUp ==> identity in counters && counters[identity].expiresAt.Some?
    {
      if !backendUp {
        return Decision(true, 0);
      }
      var count := 1;
      var expiresAt: Option<int> := None;
      if identity in counters && Live(counters[identity], now) {
        count := counters[identity].count + 1;
        expiresAt := counters[identity].expiresAt;
      }
      counters := counters[identity := Counter(count, expiresAt)];
      if count == 1 || Ttl(counters[identity], now) < 0 {
        counters := counters[identity := Counter(count, Some(now + 1000 * limits.window))];
      }
      if count > limits.max {
        var ttl := Ttl(counters[identity], now);
        return Decision(false, if ttl > 0 then ttl else limits.window);
      }
      return Decision(true, 0);
    }
  }

  // ------------------------------------------------------------------ traces

  ghost predicate Ordered(times: seq<int>) {
    forall i, j :: 0 <= i <= j < |times| ==> times[i] <= times[j]
  }

  /** The counter after a trace of requests by one identity, each at its own time. */
  function After(l: Limits, c: Option<Counter>, times: seq<int>): Option<Counter>
    decreases |times|
  {
    if |times| == 0 then c else After(l, Some(Bump(l, c, times[0])), times[1..])
  }

  /** How many of them are allowed. */
  function AllowedCount(l: Limits, c: Option<Counter>, times: seq<int>): nat
    decreases |times|
  {
    if |times| == 0 then 0
    else (if Allows(l, c, times[0]) then 1 else 0) + AllowedCount(l, Some(Bump(l, c, times[0])), times[1..])
  }

  /** The requests a running window still lets through. */
  function Room(l: Limits, count: nat): nat {
    if count < l.max then l.max - count else 0
  }

  /** The counter is inside a window that the next request continues. */
  ghost predicate Running(c: Option<Counter>, now: int) {
    c.Some? && c.value.count >= 1 && c.value.expiresAt.Some? && now <= c.value.expiresAt.value
  }

  lemma {:induction false} WithinWindow(l: Limits, c: Counter, times: seq<int>)
    requires Ordered(times) && c.count >= 1 && c.expiresAt.Some?
    requires |times| > 0 ==> times[|times| - 1] <= c.expiresAt.value
    ensures AllowedCount(l, Some(c), times) <= Room(l, c.count)
    decreases |times|
  {
    if |times| > 0 {
      assert times[0] <= times[|times| - 1];
      var rest := times[1..];
      assert |rest| > 0 ==> rest[|rest| - 1] == times[|times| - 1];
      WithinWindow(l, Bump(l, Some(c), times[0]), rest);
    }
  }

  /** A window that starts with the first request lets at most `max` through while it lasts. */
  lemma FreshWindow(l: Limits, c: Option<Counter>, times: seq<int>)
    requires Ordered(times) && |times| > 0 && !Running(c, times[0])
    requires times[|times| - 1] <= times[0] + 1000 * l.window
    ensures AllowedCount(l, c, times) <= l.max
  {
    var rest := times[1..];
    assert |rest| > 0 ==> rest[|rest| - 1] == times[|times| - 1];
    WithinWindow(l, Bump(l, c, times[0]), rest);
  }

  lemma {:induction false} TwoWindows(l: Limits, c: Option<Counter>, times: seq<int>, end: int)
    requires Ordered(times) && |times| > 0 && times[|times| - 1] <= end <= times[0] + 1000 * l.window
    ensures AllowedCount(l, c, times) <= (if Running(c, times[0]) then Room(l, c.value.count) else 0) + l.max
    decreases |times|
  {
    if !Running(c, times[0]) {
      FreshWindow(l, c, times);
    } else if |times| > 1 {
      var rest := times[1..];
      assert times[0] <= rest[0] && rest[|rest| - 1] == times[|times| - 1];
      TwoWindows(l, Some(Bump(l, c, times[0])), rest, end);
    }
  }

  lemma {:induction false} CountSplits(l: Limits, c: Option<Counter>, times: seq<int>, i: nat)
    requires i <= |times|
    ensures AllowedCount(l, c, times)
        == AllowedCount(l, c, times[..i]) + AllowedCount(l, After(l, c, times[..i]), times[i..])
    decreases i
  {
    if i > 0 {
      CountSplits(l, Some(Bump(l, c, times[0])), times[1..], i - 1);
      assert times[..i][1..] == times[1..][..i - 1] && times[1..][i - 1..] == times[i..];
    }
  }

  /** From any state of the counter, even one stranded without an expiry, any closed interval of one window
      length sees fewer than twice the ceiling. */
  lemma BelowTwiceTheCeiling(l: Limits, c: Option<Counter>, times: seq<int>, i: nat, j: nat)
    requires Ordered(times) && i < j <= |times| && times[j - 1] - times[i] <= 1000 * l.window
    ensures var passed := AllowedCount(l, c, times[..j]) - AllowedCount(l, c, times[..i]);
            if l.max == 0 then passed == 0 else passed < 2 * l.max
  {
    CountSplits(l, c, times[..j], i);
    assert times[..j][..i] == times[..i];
    TwoWindows(l, After(l, c, times[..i]), times[..j][i..], times[j - 1]);
  }

  function Burst(n: nat, t: int): (r: seq<int>)
    ensures |r| == n && Ordered(r)
  {
    seq(n, i => t)
  }

  lemma {:induction false} BurstPasses(l: Limits, c: Counter, t: int, n: nat)
    requires Running(Some(c), t) && n <= Room(l, c.count)
    ensures AllowedCount(l, Some(c), Burst(n, t)) == n
    ensures n > 0 ==>
              && After(l, Some(c), Burst(n, t)).Some?
              && After(l, Some(c), Burst(n, t)).value.expiresAt == c.expiresAt
    ensures n == 0 ==> After(l, Some(c), Burst(n, t)) == Some(c)
    decreases n
  {
    if n > 0 {
      assert Burst(n, t)[1..] == Burst(n - 1, t);
      BurstPasses(l, Bump(l, Some(c), t), t, n - 1);
    }
  }

  /** The bound is reached: a burst in the last millisecond of a window, and another just after it. */
  lemma BoundIsReached(l: Limits, t: int)
    requires l.max > 0 && l.window > 0
    ensures AllowedCount(l, Some(Counter(1, Some(t))), Burst(l.max - 1, t) + Burst(l.max, t + 1)) == 2 * l.max - 1
  {
    var c, first, second := Counter(1, Some(t)), Burst(l.max - 1, t), Burst(l.max, t + 1);
    BurstPasses(l, c, t, l.max - 1);
    CountSplits(l, Some(c), first + second, l.max - 1);
    assert (first + second)[..l.max - 1] == first && (first + second)[l.max - 1..] == second;
    var between := After(l, Some(c), first);
    assert second[1..] == Burst(l.max - 1, t + 1);
    BurstPasses(l, Bump(l, between, t + 1), t + 1, l.max - 1);
  }

  lemma {:induction false} RunningExact(l: Limits, c: Counter, times: seq<int>)
    requires c.count >= 1 && c.expiresAt.Some? && forall i :: 0 <= i < |times| ==> times[i] <= c.expiresAt.value
    ensures After(l, Some(c), times) == Some(Counter(c.count + |times|, c.expiresAt))
    ensures AllowedCount(l, Some(c), times) == if |times| <= Room(l, c.count) then |times| else Room(l, c.count)
    decreases |times|
  {
    if |times| > 0 {
      assert times[0] <= c.expiresAt.value;
      RunningExact(l, Bump(l, Some(c), times[0]), times[1..]);
    }
  }

  /** A window opens with the first request of an identity and lasts exactly its length: of the requests in it exactly
      the first `max` are allowed, and all of them are counted. */
  lemma {:induction false} WindowIsExact(l: Limits, times: seq<int>)
    requires |times| > 0 && forall i :: 0 <= i < |times| ==> times[i] <= times[0] + 1000 * l.window
    ensures AllowedCount(l, None, times) == if |times| <= l.max then |times| else l.max
    ensures After(l, None, times) == Some(Counter(|times|, Some(times[0] + 1000 * l.window)))
  {
    RunningExact(l, Counter(1, Some(times[0] + 1000 * l.window)), times[1..]);
  }

  /** After it the identity starts afresh. */
  lemma WindowEnds(l: Limits, times: seq<int>, now: int)
    requires |times| > 0 && forall i :: 0 <= i < |times| ==> times[i] <= times[0] + 1000 * l.window
    requires now > times[0] + 1000 * l.window
    ensures Bump(l, After(l, None, times), now) == Bump(l, None, now) == Counter(1, Some(now + 1000 * l.window))
  {
    WindowIsExact(l, times);
  }

  // ------------------------------------------------------------------ what retry-after promises

  /** Waiting out the advertised delay and half a second more is always enough ... */
  lemma RetrySuffices(l: Limits, c: Option<Counter>, now: int, later: int)
    requires l.window > 0 && l.max > 0 && !Allows(l, c, now)
    requires later >= now + 1000 * RetryAfter(l, Bump(l, c, now), now) + 500
    ensures Allows(l, Some(Bump(l, c, now)), later)
  {
    var b := Bump(l, c, now);
    assert later > b.expiresAt.value;
  }

  /** ... the delay alone is enough exactly when TTL, which rounds to the nearest second, has not rounded the time
      that is left down to a whole number of seconds (or had less than half a second to report). */
  lemma RetryDelaySuffices(l: Limits, c: Option<Counter>, now: int)
    requires l.window > 0 && l.max > 0 && !Allows(l, c, now)
    ensures Bump(l, c, now).expiresAt.Some?
    ensures var b := Bump(l, c, now);
            var left := b.expiresAt.value - now;
            Allows(l, Some(b), now + 1000 * RetryAfter(l, b, now)) <==> left < 500 || left % 1000 >= 500
  {
    var b := Bump(l, c, now);
    var left := b.expiresAt.value - now;
    assert Allows(l, Some(b), now + 1000 * RetryAfter(l, b, now)) <==> 1000 * RetryAfter(l, b, now) > left;
  }

  /** So a client that waits 1000 ms as it was told, with 1400 ms left, is denied again. */
  lemma RetryAloneMayFail()
    ensures var l, c := Limits(60, 1), Some(Counter(1, Some(1400)));
            RetryAfter(l, Bump(l, c, 0), 0) == 1 && !Allows(l, Some(Bump(l, c, 0)), 1000)
  {
  }
}
